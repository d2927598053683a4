/** The token card: the trust-score widget (colour, label and five dots), the suffix
    `formatNumber` picks, the icon lookup with its `DEFAULT` arm, the risk badge and which
    statistics the card shows. Everything here is a pure function of the card's props. */
module TokenCard {
  import opened Wrappers
  import opened Text
  import opened Tokens

  /** The four trust bands; both the colour and the label of a score follow its band. */
  datatype Band = VeryLow | Low | Medium | High

  /** Reference banding: 80 and above is high, 60 medium, 40 low, anything below very low. */
  function BandOf(score: int): Band {
    if score >= 80 then High else if score >= 60 then Medium else if score >= 40 then Low else VeryLow
  }

  /** `getScoreColor`. */
  function GetScoreColor(score: int): (c: string)
    ensures c == "text-green-400" <==> BandOf(score) == High
    ensures c == "text-yellow-400" <==> BandOf(score) == Medium
    ensures c == "text-orange-400" <==> BandOf(score) == Low
    ensures c == "text-red-400" <==> BandOf(score) == VeryLow
  {
    if score >= 80 then "text-green-400"
    else if score >= 60 then "text-yellow-400"
    else if score >= 40 then "text-orange-400"
    else "text-red-400"
  }

  /** `getScoreLabel`. */
  function GetScoreLabel(score: int): (text: string)
    ensures text == "High Trust" <==> BandOf(score) == High
    ensures text == "Medium Trust" <==> BandOf(score) == Medium
    ensures text == "Low Trust" <==> BandOf(score) == Low
    ensures text == "Very Low Trust" <==> BandOf(score) == VeryLow
  {
    if score >= 80 then "High Trust"
    else if score >= 60 then "Medium Trust"
    else if score >= 40 then "Low Trust"
    else "Very Low Trust"
  }

  /** The two lookups use the same thresholds: two scores share a colour exactly when they
      share a label. */
  lemma ColourAgreesWithLabel(s: int, t: int)
    ensures GetScoreColor(s) == GetScoreColor(t) <==> GetScoreLabel(s) == GetScoreLabel(t)
  {
    assert GetScoreColor(s) == GetScoreColor(t) <==> BandOf(s) == BandOf(t);
    assert GetScoreLabel(s) == GetScoreLabel(t) <==> BandOf(s) == BandOf(t);
  }

  /** Which of the five dots are lit: `i < Math.floor(score / 20)` (Dafny's `/` by a
      positive divisor is the floor). A dot is lit exactly when the score reaches the
      dot's own threshold, so the lit dots are a prefix. */
  function LitDots(score: int): (lit: seq<bool>)
    ensures |lit| == 5
    ensures forall i :: 0 <= i < 5 ==> (lit[i] <==> 20 * (i + 1) <= score)
  {
    seq(5, i requires 0 <= i < 5 => i < score / 20)
  }

  /** The class of each dot: the score's colour when lit, grey otherwise. */
  function DotClasses(score: int): (classes: seq<string>)
    ensures |classes| == 5
    ensures forall i :: 0 <= i < 5 ==>
      classes[i] == if LitDots(score)[i] then GetScoreColor(score) else "bg-gray-600"
  {
    var lit := LitDots(score);
    seq(5, i requires 0 <= i < 5 => if lit[i] then GetScoreColor(score) else "bg-gray-600")
  }

  /** The trust scores the swipe pages draw (40 to 99) light two to four dots and are
      never labelled very low. */
  lemma DrawnScoresLightTwoToFourDots(score: int)
    requires 40 <= score < 100
    ensures LitDots(score)[0] && LitDots(score)[1] && !LitDots(score)[4]
    ensures GetScoreLabel(score) != "Very Low Trust"
  {
  }

  /** What `formatNumber` prints before `toFixed(2)`: the scaled value and its suffix. */
  datatype Formatted = Formatted(mantissa: real, suffix: string)

  /** `formatNumber(num)`: the first of B, M and K whose threshold `num` reaches. */
  function FormatNumber(num: real): (f: Formatted)
    ensures f.suffix == "B" <==> num >= 1000000000.0
    ensures f.suffix == "M" <==> 1000000.0 <= num < 1000000000.0
    ensures f.suffix == "K" <==> 1000.0 <= num < 1000000.0
    ensures f.suffix == "" <==> num < 1000.0
    ensures f.suffix == "B" ==> f.mantissa * 1000000000.0 == num
    ensures f.suffix == "M" ==> f.mantissa * 1000000.0 == num
    ensures f.suffix == "K" ==> f.mantissa * 1000.0 == num
    ensures f.suffix == "" ==> f.mantissa == num
    // below a trillion, a suffixed figure has one to three digits before the point
    ensures f.suffix != "" && num < 1000000000000.0 ==> 1.0 <= f.mantissa < 1000.0
  {
    if num >= 1000000000.0 then Formatted(num / 1000000000.0, "B")
    else if num >= 1000000.0 then Formatted(num / 1000000.0, "M")
    else if num >= 1000.0 then Formatted(num / 1000.0, "K")
    else Formatted(num, "")
  }

  /** The keys of `TokenSVGs`. */
  predicate IsTableKey(key: string) {
    key in {"DOGE", "SHIB", "PEPE", "BTC", "ETH", "TOKEN1", "TOKEN2", "TOKEN3", "TOKEN4",
            "TOKEN5", "AI", "DEFAULT"}
  }

  /** The icon the card draws: the token's own element, a table entry other than
      `DEFAULT`, or the `DEFAULT` badge with its label. */
  datatype CardIcon = OwnElement | TableIcon(key: string) | DefaultIcon(caption: string)

  /** `token.baseToken?.symbol || token.symbol || "?"`. */
  function IconSymbol(t: Token): (s: string)
    ensures s != ""
    ensures TradeSymbol(t) != "" ==> s == TradeSymbol(t)
    ensures TradeSymbol(t) == "" ==> s == "?"
  {
    if TradeSymbol(t) != "" then TradeSymbol(t) else "?"
  }

  /** The `DEFAULT` entry's text: `symbol?.slice(0, 3) || "?"`. */
  function DefaultLabel(symbol: string): (text: string)
    ensures 1 <= |text| <= 3
    ensures symbol != "" ==> text == symbol[..Min(3, |symbol|)]
    ensures symbol == "" ==> text == "?"
  {
    if symbol == "" then "?" else symbol[..Min(3, |symbol|)]
  }

  /** `getSVGIcon()`. An element in `svgIcon` is used only for an AI-generated card;
      otherwise `svgIcon || 'DEFAULT'` is looked up in the table and a miss (an element
      included, whose key is no table key) falls back to `DEFAULT`. */
  function GetSvgIcon(t: Token, isAIGenerated: bool): (icon: CardIcon)
    ensures icon.OwnElement? <==> isAIGenerated && t.svgIcon.ElementIcon?
    ensures icon.TableIcon? <==> t.svgIcon.NamedIcon? && IsTableKey(t.svgIcon.key)
                                 && t.svgIcon.key != "DEFAULT"
    ensures icon.TableIcon? ==> icon.key == t.svgIcon.key
    ensures icon.DefaultIcon? ==> icon.caption == DefaultLabel(IconSymbol(t))
    // the badge shows the start of the symbol the card shows, or "?" when it has none
    ensures icon.DefaultIcon? && TradeSymbol(t) != "" ==>
      icon.caption <= TradeSymbol(t) && |icon.caption| == Min(3, |TradeSymbol(t)|)
    ensures icon.DefaultIcon? && TradeSymbol(t) == "" ==> icon.caption == "?"
  {
    if isAIGenerated && t.svgIcon.ElementIcon? then OwnElement
    else
      var svgType := if t.svgIcon.NamedIcon? && t.svgIcon.key != "" then Some(t.svgIcon.key)
                     else if t.svgIcon.NoIcon? || t.svgIcon.NamedIcon? then Some("DEFAULT")
                     else None;
      var symbol := IconSymbol(t);
      if svgType.Some? && IsTableKey(svgType.value) then
        if svgType.value == "DEFAULT" then DefaultIcon(DefaultLabel(symbol)) else TableIcon(svgType.value)
      else DefaultIcon(DefaultLabel(symbol))
  }

  /** The risk badge's colour family. */
  function RiskTone(riskLevel: string): (tone: string)
    ensures tone == "green" <==> riskLevel == "Low"
    ensures tone == "yellow" <==> riskLevel == "Medium"
    ensures tone == "red" <==> riskLevel != "Low" && riskLevel != "Medium"
  {
    if riskLevel == "Low" then "green" else if riskLevel == "Medium" then "yellow" else "red"
  }

  /** The risk badge's background, border and text classes. */
  datatype BadgeStyle = BadgeStyle(background: string, border: string, text: string)

  function RiskBadge(riskLevel: string): (b: BadgeStyle)
    ensures b.background == "bg-" + RiskTone(riskLevel) + "-500/10"
    ensures b.border == "border-" + RiskTone(riskLevel) + "-500/20"
    ensures b.text == "text-" + RiskTone(riskLevel) + "-400"
  {
    var tone := RiskTone(riskLevel);
    BadgeStyle("bg-" + tone + "-500/10", "border-" + tone + "-500/20", "text-" + tone + "-400")
  }

  /** Only "Low" is green and only "Medium" yellow: every other level, an unexpected one
      included, is drawn as high risk. */
  lemma UnknownRiskLooksHigh(riskLevel: string)
    requires riskLevel != "Low" && riskLevel != "Medium"
    ensures RiskBadge(riskLevel) == RiskBadge("High")
  {
  }

  /** The statistics tiles, in the order the card lays them out. */
  datatype Stat = Liquidity | MarketCap | Volume | Holders | Fdv

  function Rank(s: Stat): nat {
    match s
    case Liquidity => 0
    case MarketCap => 1
    case Volume => 2
    case Holders => 3
    case Fdv => 4
  }

  /** Whether the card shows a tile. Liquidity is tested on the `liquidity` object, which
      every catalog and every validated AI token carries, so that tile is always shown
      (as "$0.00" for a zero figure). Market cap is shown when non-zero, volume and
      holders only on an AI-generated card, FDV only on any other card. */
  predicate Shows(t: Token, isAIGenerated: bool, s: Stat) {
    match s
    case Liquidity => true
    case MarketCap => t.figures.marketCap != 0.0
    case Volume => isAIGenerated && t.ai.Some? && t.ai.value.volume24h != 0
    case Holders => isAIGenerated && t.ai.Some? && t.ai.value.holders != 0
    case Fdv => !isAIGenerated && t.figures.fdv != 0.0
  }

  predicate Increasing(stats: seq<Stat>) {
    forall i, j :: 0 <= i < j < |stats| ==> Rank(stats[i]) < Rank(stats[j])
  }

  /** The tiles of `layout` the card shows, in layout order. */
  function ShownTiles(layout: seq<Stat>, t: Token, isAIGenerated: bool): (r: seq<Stat>)
    ensures forall s :: s in r <==> s in layout && Shows(t, isAIGenerated, s)
    ensures Increasing(layout) ==> Increasing(r)
    decreases |layout|
  {
    if layout == [] then []
    else
      var rest := ShownTiles(layout[1..], t, isAIGenerated);
      var head := if Shows(t, isAIGenerated, layout[0]) then [layout[0]] else [];
      assert layout == [layout[0]] + layout[1..];
      assert forall s :: s in layout <==> s == layout[0] || s in layout[1..];
      assert forall s :: s in head + rest <==> s in head || s in rest;
      assert Increasing(layout) ==> Increasing(layout[1..]) && forall s :: s in rest ==> Rank(layout[0]) < Rank(s);
      head + rest
  }

  /** The order of the tiles in the grid. */
  function Layout(): seq<Stat> {
    [Liquidity, MarketCap, Volume, Holders, Fdv]
  }

  lemma LayoutIsComplete()
    ensures Increasing(Layout()) && forall s :: s in Layout()
  {
    var layout := Layout();
    assert forall i :: 0 <= i < 5 ==> Rank(layout[i]) == i;
    forall s: Stat
      ensures s in layout
    {
      match s
      case Liquidity => assert layout[0] == s;
      case MarketCap => assert layout[1] == s;
      case Volume => assert layout[2] == s;
      case Holders => assert layout[3] == s;
      case Fdv => assert layout[4] == s;
    }
  }

  /** The grid of statistics. */
  function VisibleStats(t: Token, isAIGenerated: bool): (r: seq<Stat>)
    ensures forall s :: s in r <==> Shows(t, isAIGenerated, s)
    ensures Increasing(r)
    ensures |r| > 0 && r[0] == Liquidity
  {
    LayoutIsComplete();
    var r := ShownTiles(Layout(), t, isAIGenerated);
    assert Liquidity in r;
    r
  }

  /** A card never shows FDV next to volume or holders. */
  lemma FdvExcludesAiStats(t: Token, isAIGenerated: bool)
    ensures Fdv in VisibleStats(t, isAIGenerated) ==>
      Volume !in VisibleStats(t, isAIGenerated) && Holders !in VisibleStats(t, isAIGenerated)
  {
  }

  /** The category/risk row is shown on AI-generated cards that have either; the badge
      itself only when there is a risk level. */
  function ShowsRiskBadge(t: Token, isAIGenerated: bool): (shown: bool)
    ensures shown ==> isAIGenerated && t.ai.Some?
    ensures shown <==> isAIGenerated && t.ai.Some? && t.ai.value.riskLevel != ""
  {
    isAIGenerated && t.ai.Some? && t.ai.value.riskLevel != ""
  }
}

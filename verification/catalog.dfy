/** The static token catalog of the swipe page: five meme-coin base tokens, rewritten per
    category, and the page title of each category. `Math.random` and the clock are
    parameters. */
module Catalog {
  import opened Wrappers
  import opened Tokens

  /** A draw of `Math.floor(Math.random() * 40)`. */
  type ScoreRoll = r: nat | r < 40

  /** A draw of `Math.random()`. */
  type Fraction = r: real | 0.0 <= r < 1.0

  /** The random values one catalog entry may consume: the risky-degens price change
      (already rendered by `toFixed(2)`), the newly-launched age fraction and the
      ai-analyzed score draw. */
  datatype Roll = Roll(priceChange24h: string, age: Fraction, score: ScoreRoll)

  function Base(id: int, name: string, symbol: string, price: real, change: string,
                marketCap: real, liquidity: real, fdv: real, created: real): Token
  {
    Token(id, name, symbol, Figures(price, change, marketCap, liquidity, fdv, created),
          Some(BaseToken(name, symbol)), NoIcon, None, None)
  }

  /** `baseTokens`. */
  function BaseTokens(): (r: seq<Token>)
    ensures |r| == 5
    ensures forall i :: 0 <= i < 5 ==> r[i].id == i + 1 && r[i].baseToken.Some?
    ensures forall i :: 0 <= i < 5 ==>
      DisplayName(r[i]) == r[i].name && TradeSymbol(r[i]) == r[i].symbol
  {
    [ Base(1, "Dogecoin", "DOGE", 0.072345, "5.67", 10500000000.0, 45000000.0,
           10600000000.0, 1640995200.0),
      Base(2, "Shiba Inu", "SHIB", 0.000008234, "-2.34", 4800000000.0, 28000000.0,
           4850000000.0, 1629936000.0),
      Base(3, "Pepe", "PEPE", 0.00000123, "12.45", 520000000.0, 15000000.0,
           520000000.0, 1681776000.0),
      Base(4, "Floki Inu", "FLOKI", 0.00003456, "8.92", 330000000.0, 12000000.0,
           340000000.0, 1625097600.0),
      Base(5, "Baby Doge Coin", "BABYDOGE", 0.0000000023, "-1.23", 160000000.0, 8000000.0,
           165000000.0, 1623456000.0) ]
  }

  function Symbols(ts: seq<Token>): (r: seq<string>)
    ensures |r| == |ts| && forall i :: 0 <= i < |ts| ==> r[i] == ts[i].symbol
  {
    seq(|ts|, i requires 0 <= i < |ts| => ts[i].symbol)
  }

  /** `{ ...baseTokens[i], name, symbol, price, marketCap, liquidity }` as written: the
      spread keeps the Dogecoin / Shiba Inu `baseToken`. */
  function BlueChipAsWritten(from: Token, name: string, symbol: string, price: real,
                             marketCap: real, liquidity: real): Token
  {
    from.(name := name, symbol := symbol,
          figures := from.figures.(price := price, marketCap := marketCap, liquidityUsd := liquidity))
  }

  function BlueChipsAsWritten(): (r: seq<Token>)
    ensures |r| == 2 && Symbols(r) == ["BTC", "ETH"]
    ensures r[0].name == "Bitcoin" && r[1].name == "Ethereum"
  {
    [ BlueChipAsWritten(BaseTokens()[0], "Bitcoin", "BTC", 43250.67, 850000000000.0, 2000000000.0),
      BlueChipAsWritten(BaseTokens()[1], "Ethereum", "ETH", 2650.43, 320000000000.0, 1500000000.0) ]
  }

  /** As written, the Bitcoin entry is shown and announced as Dogecoin: every display
      and the symbol on the card prefer `baseToken`, which the spread left unchanged. */
  lemma BlueChipsShowDogecoin()
    ensures BlueChipsAsWritten()[0].name == "Bitcoin"
    ensures DisplayName(BlueChipsAsWritten()[0]) == "Dogecoin"
    ensures TradeSymbol(BlueChipsAsWritten()[0]) == "DOGE"
    ensures DisplayName(BlueChipsAsWritten()[1]) == "Shiba Inu"
    ensures TradeSymbol(BlueChipsAsWritten()[1]) == "SHIB"
  {
    var b := BaseTokens();
    assert b[0].baseToken == Some(BaseToken("Dogecoin", "DOGE"));
    assert b[1].baseToken == Some(BaseToken("Shiba Inu", "SHIB"));
  }

  /** The blue-chip entry with its `baseToken` renamed along with it. */
  function BlueChip(from: Token, name: string, symbol: string, price: real,
                    marketCap: real, liquidity: real): (r: Token)
    ensures r.name == name && r.symbol == symbol && r.id == from.id
    ensures DisplayName(r) == name && TradeSymbol(r) == symbol
  {
    BlueChipAsWritten(from, name, symbol, price, marketCap, liquidity)
      .(baseToken := Some(BaseToken(name, symbol)))
  }

  function BlueChips(): (r: seq<Token>)
    ensures |r| == 2 && Symbols(r) == ["BTC", "ETH"]
    ensures forall i :: 0 <= i < 2 ==>
      DisplayName(r[i]) == r[i].name && TradeSymbol(r[i]) == r[i].symbol
  {
    [ BlueChip(BaseTokens()[0], "Bitcoin", "BTC", 43250.67, 850000000000.0, 2000000000.0),
      BlueChip(BaseTokens()[1], "Ethereum", "ETH", 2650.43, 320000000000.0, 1500000000.0) ]
  }

  predicate IsKnownCategory(category: string) {
    category in {"meme-coins", "risky-degens", "newly-launched", "blue-chips", "ai-analyzed"}
  }

  /** The base tokens' symbols, in order. */
  lemma BaseSymbols()
    ensures Symbols(BaseTokens()) == ["DOGE", "SHIB", "PEPE", "FLOKI", "BABYDOGE"]
  {
  }

  /** Entry by entry a rewrite of the base tokens: same id, name, symbol and `baseToken`. */
  predicate KeepsIdentity(r: seq<Token>) {
    var base := BaseTokens();
    && |r| == 5
    && forall i :: 0 <= i < 5 ==>
      && r[i].id == base[i].id && r[i].name == base[i].name
      && r[i].symbol == base[i].symbol && r[i].baseToken == base[i].baseToken
  }

  /** A rewrite of the base tokens shows the base tokens' names and symbols, with ids
      1 to 5. */
  lemma {:induction false} IdentityFacts(r: seq<Token>)
    requires KeepsIdentity(r)
    ensures Symbols(r) == ["DOGE", "SHIB", "PEPE", "FLOKI", "BABYDOGE"]
    ensures forall i :: 0 <= i < 5 ==>
      && r[i].id == i + 1 && r[i].name == BaseTokens()[i].name && DisplayName(r[i]) == r[i].name
  {
    var base := BaseTokens();
    BaseSymbols();
    assert Symbols(r) == Symbols(base);
    assert forall i :: 0 <= i < 5 ==> DisplayName(r[i]) == DisplayName(base[i]);
  }

  /** The fields a category rewrite other than ai-analyzed leaves alone. */
  predicate SameExtras(a: Token, b: Token) {
    a.svgIcon == b.svgIcon && a.aiScore == b.aiScore && a.ai == b.ai
  }

  /** The risky-degens rewrite: a random price change and 30% of the liquidity. */
  function RiskyDegens(roll: nat -> Roll): (r: seq<Token>)
    ensures KeepsIdentity(r)
    ensures forall i :: 0 <= i < 5 ==>
      && r[i].figures.priceChange24h == roll(i).priceChange24h
      && r[i].figures.liquidityUsd == BaseTokens()[i].figures.liquidityUsd * 0.3
    ensures forall i :: 0 <= i < 5 ==>
      var b := BaseTokens()[i].figures;
      && r[i].figures.price == b.price && r[i].figures.marketCap == b.marketCap
      && r[i].figures.fdv == b.fdv && r[i].figures.pairCreatedAt == b.pairCreatedAt
      && SameExtras(r[i], BaseTokens()[i])
  {
    var base := BaseTokens();
    seq(5, i requires 0 <= i < 5 =>
      base[i].(figures := base[i].figures.(priceChange24h := roll(i).priceChange24h,
                                            liquidityUsd := base[i].figures.liquidityUsd * 0.3)))
  }

  /** The newly-launched rewrite: created within the last week, a tenth of the market cap. */
  function NewlyLaunched(now: real, roll: nat -> Roll): (r: seq<Token>)
    ensures KeepsIdentity(r)
    ensures forall i :: 0 <= i < 5 ==>
      && now - 604800.0 < r[i].figures.pairCreatedAt <= now
      && r[i].figures.marketCap == BaseTokens()[i].figures.marketCap * 0.1
    ensures forall i :: 0 <= i < 5 ==>
      var b := BaseTokens()[i].figures;
      && r[i].figures.price == b.price && r[i].figures.priceChange24h == b.priceChange24h
      && r[i].figures.liquidityUsd == b.liquidityUsd && r[i].figures.fdv == b.fdv
      && SameExtras(r[i], BaseTokens()[i])
  {
    var base := BaseTokens();
    var launched := seq(5, i requires 0 <= i < 5 =>
      base[i].(figures := base[i].figures.(pairCreatedAt := now - roll(i).age * 86400.0 * 7.0,
                                            marketCap := base[i].figures.marketCap * 0.1)));
    assert forall i :: 0 <= i < 5 ==>
      launched[i].figures.pairCreatedAt == now - roll(i).age * 604800.0;
    launched
  }

  /** The ai-analyzed rewrite: a score from 60 to 99. */
  function AiAnalyzed(roll: nat -> Roll): (r: seq<Token>)
    ensures KeepsIdentity(r)
    ensures forall i :: 0 <= i < 5 ==> r[i].aiScore == Some(roll(i).score + 60)
    ensures forall i :: 0 <= i < 5 ==>
      && r[i].figures == BaseTokens()[i].figures
      && r[i].svgIcon == BaseTokens()[i].svgIcon && r[i].ai == BaseTokens()[i].ai
  {
    var base := BaseTokens();
    seq(5, i requires 0 <= i < 5 => base[i].(aiScore := Some(roll(i).score + 60)))
  }

  /** `getMockTokens(category)` as written; `now` is `Date.now() / 1000` and `roll(i)`
      the random draws for entry `i`. The blue-chip entries still show the names and
      symbols of Dogecoin and Shiba Inu. */
  function GetMockTokens(category: string, now: real, roll: nat -> Roll): (r: seq<Token>)
    ensures |r| > 0
    ensures category == "blue-chips" ==>
      && |r| == 2 && Symbols(r) == ["BTC", "ETH"]
      && r[0].name == "Bitcoin" && r[1].name == "Ethereum"
      && DisplayName(r[0]) == "Dogecoin" && TradeSymbol(r[0]) == "DOGE"
      && DisplayName(r[1]) == "Shiba Inu" && TradeSymbol(r[1]) == "SHIB"
    ensures category != "blue-chips" ==>
      && |r| == 5
      && Symbols(r) == ["DOGE", "SHIB", "PEPE", "FLOKI", "BABYDOGE"]
      && forall i :: 0 <= i < 5 ==> r[i].id == i + 1 && r[i].name == BaseTokens()[i].name
    ensures category == "meme-coins" || !IsKnownCategory(category) ==> r == BaseTokens()
    ensures category == "risky-degens" ==> forall i :: 0 <= i < |r| ==>
      && r[i].figures.priceChange24h == roll(i).priceChange24h
      && r[i].figures.liquidityUsd == BaseTokens()[i].figures.liquidityUsd * 0.3
    ensures category == "newly-launched" ==> forall i :: 0 <= i < |r| ==>
      && now - 604800.0 < r[i].figures.pairCreatedAt <= now
      && r[i].figures.marketCap == BaseTokens()[i].figures.marketCap * 0.1
    ensures category == "ai-analyzed" ==> forall i :: 0 <= i < |r| ==>
      r[i].aiScore.Some? && 60 <= r[i].aiScore.value < 100
    ensures category != "blue-chips" ==> forall i :: 0 <= i < |r| ==> DisplayName(r[i]) == r[i].name
  {
    var r := match category
      case "meme-coins" => BaseTokens()
      case "risky-degens" => RiskyDegens(roll)
      case "newly-launched" => NewlyLaunched(now, roll)
      case "blue-chips" => BlueChipsAsWritten()
      case "ai-analyzed" => AiAnalyzed(roll)
      case _ => BaseTokens();
    if category != "blue-chips" then IdentityFacts(r); r else BlueChipsShowDogecoin(); r
  }

  /** The catalog as evidently intended: the blue-chip entries carry their own
      `baseToken`, so every entry shows its own name and symbol.
      Nothing else differs from `GetMockTokens`. */
  function GetMockTokensIntended(category: string, now: real, roll: nat -> Roll): (r: seq<Token>)
    ensures var w := GetMockTokens(category, now, roll);
      && |r| == |w| && Symbols(r) == Symbols(w)
      && (category != "blue-chips" ==> r == w)
      && forall i :: 0 <= i < |r| ==> r[i] == w[i].(baseToken := Some(BaseToken(r[i].name, r[i].symbol)))
    ensures forall i :: 0 <= i < |r| ==>
      DisplayName(r[i]) == r[i].name && TradeSymbol(r[i]) == r[i].symbol
  {
    var w := GetMockTokens(category, now, roll);
    if category == "blue-chips" then BlueChips()
    else
      assert forall i :: 0 <= i < |w| ==> w[i].baseToken == Some(BaseToken(w[i].name, w[i].symbol));
      w
  }

  /** `getCategoryTitle(category)`. */
  function CategoryTitle(category: string): (title: string)
    ensures title == "Tokens" <==> !IsKnownCategory(category)
    ensures category == "blue-chips" ==> title == "Blue Chips"
    ensures category == "ai-analyzed" ==> title == "AI Analyzed"
    ensures category == "meme-coins" ==> title == "Meme Coins"
    ensures category == "risky-degens" ==> title == "Risky Degens"
    ensures category == "newly-launched" ==> title == "Newly Launched"
  {
    match category
    case "meme-coins" => "Meme Coins"
    case "risky-degens" => "Risky Degens"
    case "newly-launched" => "Newly Launched"
    case "blue-chips" => "Blue Chips"
    case "ai-analyzed" => "AI Analyzed"
    case _ => "Tokens"
  }
}

/** `AIService.generateTokens` and `AIService.getFallbackTokens`: a chain of checks on the
    generation service's reply, each of which falls back to four pre-written tokens, and
    the normalisation of at most five generated tokens. The HTTP exchange, `JSON.parse`,
    the clock and `Math.random` are parameters. */
module AiService {
  import opened Wrappers
  import opened Text
  import opened Tokens

  /** One element of the parsed array, with every field read as `token.<field>` gives it:
      absent and falsy values are the empty string or zero (numbers have already been
      through `parseFloat`/`parseInt`, whose NaN is falsy as well). */
  datatype RawToken = RawToken(
    id: int,
    name: string,
    symbol: string,
    price: real,
    priceChange24h: Option<string>,
    marketCap: int,
    liquidityUsd: Option<real>,
    fdv: int,
    pairCreatedAt: real,
    baseToken: Option<BaseToken>,
    description: string,
    aiReasoning: string,
    category: string,
    riskLevel: string,
    volume24h: int,
    holders: int)

  /** An array element: `null` (reading a field of it throws) or anything else. */
  datatype RawItem = NullItem | Item(token: RawToken)

  /** What `JSON.parse` made of the extracted text. */
  datatype Parsed = ParseThrew | NotAnArray | JsonArray(items: seq<RawItem>)

  /** The body of an ok response: `response.json()` threw, or the text found at
      `candidates[0].content.parts[0].text` (empty when absent). */
  datatype Body = JsonThrew | Candidate(text: string)

  /** The `fetch` to the generation service. */
  datatype Response = FetchThrew | NotOk(status: int) | Ok(body: Body)

  /** `Math.random() * 0.001`. */
  type PriceDraw = r: real | 0.0 <= r < 0.001

  /** `Math.floor(Math.random() * bound)` for the bounds the normalisation uses. */
  type MarketCapDraw = r: nat | r < 10000000
  type LiquidityDraw = r: nat | r < 100000
  type FdvDraw = r: nat | r < 1000000
  type AgeDraw = r: nat | r < 86400 * 90
  type VolumeDraw = r: nat | r < 500000
  type HoldersDraw = r: nat | r < 5000

  /** The `Math.random` draws one validated token may use, already scaled and floored;
      the price change is the draw already rendered by `toFixed(2)`. */
  datatype AiRoll = AiRoll(price: PriceDraw, priceChange24h: string, marketCap: MarketCapDraw,
                           liquidity: LiquidityDraw, fdvExtra: FdvDraw, age: AgeDraw,
                           volume: VolumeDraw, holders: HoldersDraw)

  /** `text.match(/\[[\s\S]*\]/)`: the greedy match runs from the first '[' to the last
      ']' after it, and there is a match exactly when some ']' follows some '['. */
  function ExtractJsonArray(text: string): (r: Option<string>)
    ensures r.Some? <==> exists i, j :: 0 <= i < j < |text| && text[i] == '[' && text[j] == ']'
    ensures r.Some? ==> exists i, j ::
      && 0 <= i < j < |text| && text[i] == '[' && text[j] == ']'
      && r.value == text[i..j + 1]
      && (forall k :: 0 <= k < i ==> text[k] != '[')
      && (forall k :: j < k < |text| ==> text[k] != ']')
    ensures r.Some? ==> |r.value| >= 2 && r.value[0] == '[' && r.value[|r.value| - 1] == ']'
  {
    match FirstIndexOf(text, '[')
    case None => None
    case Some(i) =>
      match LastIndexOf(text, ']')
      case None => None
      case Some(j) => if i < j then Some(text[i..j + 1]) else None
  }

  /** `prefix"<prompt>"suffix`: a sentence quoting the user's prompt. */
  function Quoting(prefix: string, prompt: string, suffix: string): (s: string)
    ensures Contains(s, prompt)
  {
    ContainsMiddle(prefix + "\"", prompt, "\"" + suffix);
    (prefix + "\"") + prompt + ("\"" + suffix)
  }

  /** A pre-written token: its own name and symbol double as its `baseToken`. */
  function Prewritten(id: int, name: string, symbol: string, figures: Figures, details: AiDetails): (t: Token)
    requires name != "" && symbol != ""
    ensures t.id == id && t.name == name && t.symbol == symbol
    ensures t.svgIcon == NamedIcon("AI") && t.ai == Some(details)
    ensures DisplayName(t) == name && TradeSymbol(t) == symbol
  {
    Token(id, name, symbol, figures, Some(BaseToken(name, symbol)), NamedIcon("AI"), None, Some(details))
  }

  /** What every pre-written token has: the AI icon, AI details whose reasoning quotes
      the prompt, and a `baseToken` naming it as it is named itself. */
  ghost predicate IsPrewritten(t: Token, prompt: string) {
    && t.svgIcon == NamedIcon("AI") && t.ai.Some?
    && t.name != "" && t.symbol != ""
    && DisplayName(t) == t.name && TradeSymbol(t) == t.symbol
    && Contains(t.ai.value.aiReasoning, prompt)
  }

  // The sentences below are written in short pieces: the verifier reasons about a
  // string literal character by character, and long ones make every proof that looks
  // inside a pre-written token expensive.

  /** The first pre-written token. */
  function NeuralToken(prompt: string, now: int): (t: Token)
    ensures t.id == 1 && t.symbol == "NEURAL" && IsPrewritten(t, prompt)
  {
    Prewritten(1, "Neural Network " + "Protocol", "NEURAL",
      Figures(0.000234, "67.89", 2400000.0, 45000.0, 2500000.0, (now - 86400 * 14) as real),
      AiDetails("AI-powered " + "decentralized " + "trading algorithm " + "with machine " + "learning " + "capabilities",
                Quoting("Matches your search " + "for ", prompt, " with advanced AI " + "and neural network " + "technology"),
                "AI", "Medium", 180000, 1250))
  }

  /** The second pre-written token. */
  function QuantumToken(prompt: string, now: int): (t: Token)
    ensures t.id == 2 && t.symbol == "QLAP" && IsPrewritten(t, prompt)
  {
    Prewritten(2, "Quantum Leap Finance", "QLAP",
      Figures(0.000567, "-23.45", 1800000.0, 32000.0, 1900000.0, (now - 86400 * 21) as real),
      AiDetails("Next-generation " + "quantum computing " + "for DeFi " + "optimization and " + "yield farming",
                Quoting("Perfect for ", prompt, " as it represents " + "cutting-edge " + "quantum technology " + "in finance"),
                "DeFi", "High", 95000, 890))
  }

  /** The third pre-written token. */
  function ContractToken(prompt: string, now: int): (t: Token)
    ensures t.id == 3 && t.symbol == "SCAI" && IsPrewritten(t, prompt)
  {
    Prewritten(3, "Smart Contract AI", "SCAI",
      Figures(0.00123, "145.67", 5600000.0, 89000.0, 5800000.0, (now - 86400 * 7) as real),
      AiDetails("Automated smart " + "contract deployment " + "and optimization " + "using artificial " + "intelligence",
                Quoting("Ideal match for ", prompt, " combining AI with " + "blockchain " + "automation " + "technology"),
                "AI", "Low", 320000, 2100))
  }

  /** The fourth pre-written token. */
  function MetaverseToken(prompt: string, now: int): (t: Token)
    ensures t.id == 4 && t.symbol == "MVBLD" && IsPrewritten(t, prompt)
  {
    Prewritten(4, "MetaVerse Builder", "MVBLD",
      Figures(0.00089, "78.23", 3200000.0, 67000.0, 3300000.0, (now - 86400 * 35) as real),
      AiDetails("AI-powered " + "metaverse " + "construction " + "toolkit for " + "creating immersive " + "virtual worlds",
                Quoting("Aligns with ", prompt, " through innovative " + "AI-driven virtual " + "world creation"),
                "Gaming", "Medium", 210000, 1680))
  }

  /** The pre-written token at position `k`. */
  function PrewrittenToken(k: nat, prompt: string, now: int): (t: Token)
    requires k < 4
    ensures t.id == k + 1 && IsPrewritten(t, prompt)
    ensures t.symbol == ["NEURAL", "QLAP", "SCAI", "MVBLD"][k]
  {
    match k
    case 0 => NeuralToken(prompt, now)
    case 1 => QuantumToken(prompt, now)
    case 2 => ContractToken(prompt, now)
    case _ => MetaverseToken(prompt, now)
  }

  /** `getFallbackTokens(prompt)`, `now` being `Math.floor(Date.now() / 1000)`: four
      pre-written tokens, each explaining itself in terms of the user's prompt. */
  function FallbackTokens(prompt: string, now: int): (r: seq<Token>)
    ensures |r| == 4
    ensures forall i :: 0 <= i < 4 ==> r[i].id == i + 1
    ensures forall i :: 0 <= i < 4 ==> IsPrewritten(r[i], prompt)
    ensures forall i :: 0 <= i < 4 ==> r[i].symbol == ["NEURAL", "QLAP", "SCAI", "MVBLD"][i]
  {
    seq(4, k requires 0 <= k < 4 => PrewrittenToken(k, prompt, now))
  }

  /** The numeric fields of a normalised element: the element's value when truthy,
      otherwise a random draw in the documented range. */
  function ValidateFigures(raw: RawToken, now: int, roll: AiRoll): (f: Figures)
    ensures raw.price != 0.0 ==> f.price == raw.price
    ensures raw.marketCap != 0 ==> f.marketCap == raw.marketCap as real
    ensures raw.price == 0.0 ==> 0.0 <= f.price < 0.001
    ensures raw.marketCap == 0 ==> 100000.0 <= f.marketCap < 10100000.0
    ensures raw.fdv != 0 ==> f.fdv == raw.fdv as real
    ensures raw.fdv == 0 ==> raw.marketCap as real <= f.fdv < raw.marketCap as real + 1000000.0
    ensures raw.fdv == 0 && raw.marketCap == 0 ==> f.fdv == roll.fdvExtra as real
    ensures raw.liquidityUsd.Some? ==> f.liquidityUsd == raw.liquidityUsd.value
    ensures raw.liquidityUsd.None? ==> 10000.0 <= f.liquidityUsd < 110000.0
    ensures raw.pairCreatedAt != 0.0 ==> f.pairCreatedAt == raw.pairCreatedAt
    ensures raw.pairCreatedAt == 0.0 ==>
      (now - 86400 * 90) as real < f.pairCreatedAt <= now as real
  {
    Figures(
      if raw.price != 0.0 then raw.price else roll.price,
      if raw.priceChange24h.Some? then raw.priceChange24h.value else roll.priceChange24h,
      (if raw.marketCap != 0 then raw.marketCap else roll.marketCap + 100000) as real,
      if raw.liquidityUsd.Some? then raw.liquidityUsd.value else (roll.liquidity + 10000) as real,
      (if raw.fdv != 0 then raw.fdv else raw.marketCap + roll.fdvExtra) as real,
      if raw.pairCreatedAt != 0.0 then raw.pairCreatedAt else (now - roll.age) as real)
  }

  /** The AI-specific fields of a normalised element. */
  function ValidateDetails(raw: RawToken, prompt: string, roll: AiRoll): (d: AiDetails)
    ensures d.category == (if raw.category != "" then raw.category else "AI")
    ensures d.riskLevel == (if raw.riskLevel != "" then raw.riskLevel else "Medium")
    ensures raw.aiReasoning != "" ==> d.aiReasoning == raw.aiReasoning
    ensures raw.aiReasoning == "" ==> Contains(d.aiReasoning, prompt)
    ensures d.holders != 0 && d.volume24h != 0
    ensures raw.volume24h != 0 ==> d.volume24h == raw.volume24h
    ensures raw.volume24h == 0 ==> 50000 <= d.volume24h < 550000
    ensures raw.holders != 0 ==> d.holders == raw.holders
    ensures raw.holders == 0 ==> 100 <= d.holders < 5100
  {
    AiDetails(
      if raw.description != "" then raw.description else "AI-generated token " + "for " + prompt,
      if raw.aiReasoning != "" then raw.aiReasoning
      else Quoting("This token matches " + "your search for ", prompt, " based on its " + "innovative features."),
      if raw.category != "" then raw.category else "AI",
      if raw.riskLevel != "" then raw.riskLevel else "Medium",
      if raw.volume24h != 0 then raw.volume24h else roll.volume + 50000,
      if raw.holders != 0 then raw.holders else roll.holders + 100)
  }

  /** The `limitedTokens.map((token, index) => ...)` normalisation of one element. */
  function ValidateToken(raw: RawToken, index: nat, prompt: string, now: int, roll: AiRoll): (t: Token)
    ensures t.id == (if raw.id != 0 then raw.id else index + 1)
    ensures t.name == (if raw.name != "" then raw.name else "AI Token " + NatText(index + 1))
    ensures t.symbol == (if raw.symbol != "" then raw.symbol else "AI" + NatText(index + 1))
    ensures t.svgIcon == NamedIcon("AI")
    ensures t.ai == Some(ValidateDetails(raw, prompt, roll))
    // whatever the element lacked, the card has a name and the wallet a symbol
    ensures t.id != 0 && DisplayName(t) != "" && TradeSymbol(t) != ""
  {
    Token(
      if raw.id != 0 then raw.id else index + 1,
      if raw.name != "" then raw.name else "AI Token " + NatText(index + 1),
      if raw.symbol != "" then raw.symbol else "AI" + NatText(index + 1),
      ValidateFigures(raw, now, roll),
      if raw.baseToken.Some? then raw.baseToken else Some(BaseToken(raw.name, raw.symbol)),
      NamedIcon("AI"),
      None,
      Some(ValidateDetails(raw, prompt, roll)))
  }

  predicate NoNulls(items: seq<RawItem>) {
    forall i :: 0 <= i < |items| ==> items[i].Item?
  }

  /** The generated text, when a key is configured, the request succeeded, its body
      parsed and it holds a non-empty candidate text. */
  function ReplyText(hasKey: bool, response: Response): (text: Option<string>)
    ensures text.Some? <==> hasKey && response.Ok? && response.body.Candidate? && response.body.text != ""
    ensures text.Some? ==> text.value == response.body.text
  {
    if hasKey && response.Ok? && response.body.Candidate? && response.body.text != "" then
      Some(response.body.text)
    else None
  }

  /** The parsed array in the generated text, when there is a non-empty one. */
  function ParsedItems(text: string, parse: string -> Parsed): (items: Option<seq<RawItem>>)
    ensures items.Some? <==> ExtractJsonArray(text).Some?
                             && parse(ExtractJsonArray(text).value).JsonArray?
                             && |parse(ExtractJsonArray(text).value).items| > 0
    ensures items.Some? ==> items.value == parse(ExtractJsonArray(text).value).items
  {
    match ExtractJsonArray(text)
    case None => None
    case Some(json) =>
      match parse(json)
      case JsonArray(items) => if |items| > 0 then Some(items) else None
      case _ => None
  }

  /** `tokens.slice(0, 5).map(...)`; `None` when one of those elements is `null`, whose
      field read throws. */
  function Normalise(items: seq<RawItem>, prompt: string, now: int, roll: nat -> AiRoll): (r: Option<seq<Token>>)
    ensures r.Some? <==> NoNulls(items[..Min(5, |items|)])
    ensures r.Some? ==> |r.value| == Min(5, |items|) && forall i :: 0 <= i < |r.value| ==>
      items[i].Item? && r.value[i] == ValidateToken(items[i].token, i, prompt, now, roll(i))
  {
    var limited := items[..Min(5, |items|)];
    if !NoNulls(limited) then None
    else Some(seq(|limited|, i requires 0 <= i < |limited| =>
                    ValidateToken(limited[i].token, i, prompt, now, roll(i))))
  }

  /** `generateTokens(prompt)`. `hasKey` says whether an API key is configured,
      `response` is what the request produced, `parse` is `JSON.parse`, `now` the clock
      in seconds and `roll(i)` the random draws for element `i`. It never fails: every
      failed stage yields the pre-written tokens. */
  function GenerateTokens(hasKey: bool, prompt: string, response: Response,
                          parse: string -> Parsed, now: int, roll: nat -> AiRoll): (r: seq<Token>)
    ensures 1 <= |r| <= 5
    ensures forall i :: 0 <= i < |r| ==>
      && r[i].svgIcon == NamedIcon("AI") && r[i].ai.Some?
      && DisplayName(r[i]) != "" && TradeSymbol(r[i]) != ""
    ensures ReplyText(hasKey, response).None? ==> r == FallbackTokens(prompt, now)
    ensures ReplyText(hasKey, response).Some? ==>
      var text := ReplyText(hasKey, response).value;
      if ParsedItems(text, parse).None? then r == FallbackTokens(prompt, now)
      else
        var normalised := Normalise(ParsedItems(text, parse).value, prompt, now, roll);
        r == if normalised.Some? then normalised.value else FallbackTokens(prompt, now)
  {
    var fallback := FallbackTokens(prompt, now);
    match ReplyText(hasKey, response)
    case None => fallback
    case Some(text) =>
      match ParsedItems(text, parse)
      case None => fallback
      case Some(items) =>
        match Normalise(items, prompt, now, roll)
        case None => fallback
        case Some(tokens) => tokens
  }
}

/** The token record the front end passes between the catalog, the AI service, the swipe
    pages and the token card. A JavaScript field that is absent or falsy is modelled by
    the empty string, zero, or `None`. */
module Tokens {
  import opened Wrappers

  /** `baseToken: { name, symbol }`. */
  datatype BaseToken = BaseToken(name: string, symbol: string)

  /** What a token's `svgIcon` field holds: nothing, a key into the card's icon table,
      or a ready-made React element (the AI hunt page substitutes one). */
  datatype SvgIcon = NoIcon | NamedIcon(key: string) | ElementIcon

  /** The fields only AI-generated tokens carry. */
  datatype AiDetails = AiDetails(
    description: string,
    aiReasoning: string,
    category: string,
    riskLevel: string,
    volume24h: int,
    holders: int)

  /** Market figures, display only (JavaScript numbers, taken as exact reals). */
  datatype Figures = Figures(
    price: real,
    priceChange24h: string,
    marketCap: real,
    liquidityUsd: real,
    fdv: real,
    pairCreatedAt: real)

  datatype Token = Token(
    id: int,
    name: string,
    symbol: string,
    figures: Figures,
    baseToken: Option<BaseToken>,
    svgIcon: SvgIcon,
    aiScore: Option<int>,
    ai: Option<AiDetails>)

  /** `token.baseToken?.name || token.name`: the name every page shows and puts in its
      notifications. */
  function DisplayName(t: Token): (r: string)
    ensures t.baseToken.Some? && t.baseToken.value.name != "" ==> r == t.baseToken.value.name
    ensures t.baseToken.None? || t.baseToken.value.name == "" ==> r == t.name
  {
    if t.baseToken.Some? && t.baseToken.value.name != "" then t.baseToken.value.name else t.name
  }

  /** `token.baseToken?.symbol || token.symbol`: the symbol shown on the card and sent to
      the wallet as the trade key. */
  function TradeSymbol(t: Token): (r: string)
    ensures t.baseToken.Some? && t.baseToken.value.symbol != "" ==> r == t.baseToken.value.symbol
    ensures t.baseToken.None? || t.baseToken.value.symbol == "" ==> r == t.symbol
  {
    if t.baseToken.Some? && t.baseToken.value.symbol != "" then t.baseToken.value.symbol else t.symbol
  }
}

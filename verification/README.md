# ic_swipe in Dafny

ic_swipe is a token-discovery app on the Internet Computer. A Rust canister keeps, per
principal, a simulated ICP balance, deposit and swap totals, a default swap amount, and
token holdings stored under "<principal>:<token>" keys. Swaps between ICP and a token
are one to one. A React front end shows tokens one card at a time: a swipe right (or the
buy button) buys the current token and a swipe left skips it. The tokens come from a
static catalog per category, or from an AI service that asks a generation service for
tokens matching a prompt and falls back to four pre-written tokens whenever anything goes
wrong. Notifications appear in a single toast slot with an auto-close timer.

This project models that core and proves what its code promises:

- **wrappers.dfy**: `Option`.
- **text.dfy**: decimal text, the two-decimal ICP display, substring containment,
  character search and `trim`'s whitespace.
- **tokens.dfy**: the token record every page passes around, and the
  `baseToken?.name || name` display rules.
- **ledger.dfy**: the canister. Each endpoint is a step function on a `State` value, and
  the class `Canister` implements each endpoint imperatively against its two maps, with
  its result and new state tied to the step function.
- **ledger_properties.dfy**: properties that relate several calls or several principals.
- **gesture.dfy**: the 100 px drag threshold and the cursor step shared by both swipe
  pages.
- **toast.dfy**: the toast's style lookups and its timer rule, as a class holding the
  slot and its live timer.
- **catalog.dfy**: `getMockTokens` and `getCategoryTitle`.
- **swipe_page.dfy**: the category swipe page.
- **neural_hunt_page.dfy**: the AI swipe page, whose buy goes through the canister. It
  has step functions on a `Page` value and a class whose handlers are tied to them.
- **ai_service.dfy**: `generateTokens` and `getFallbackTokens`.
- **token_card.dfy**: the card's trust widget, number suffixes, icon lookup, risk
  badge and statistics grid.
- **navbar.dfy**: the navigation items, active-route highlighting, visibility,
  refresh guard, menu and logout.
- **neural_hunt.dfy**: the prompt card that starts an AI hunt. Its step functions are
  replayed over event sequences, and a class mirrors the component's handlers.

The model is a specification: it is verified, not compiled.

Outside effects are parameters:
- the caller's principal;
- the clock (`now`);
- every `Math.random` draw, as a value in the range the code draws from;
- the generation service's HTTP response;
- `JSON.parse`, as a function from text to a parsed value;
- the wallet's answer to a swap call.

Amounts are whole minor units (1/100 ICP) as `nat`. Display-only market figures are
exact `real`s.

Both swipe pages keep the cursor on the last card (`if (index < length - 1)`), so
`Gesture.Advance` never leaves the list.

## Model

| member | source | states |
|---|---|---|
| Ledger.UserOf | src/ic_swipe_backend/src/lib.rs:43-52 | A principal without a record reads as the all-zero record and nothing is inserted; a stored record is returned as stored. |
| Ledger.TokenBalanceOf | src/ic_swipe_backend/src/lib.rs:111-117 | A missing "<principal>:<token>" key reads as 0 and a present one as its stored balance; when no zero is stored, the balance is positive exactly when the key is present. |
| Ledger.WithUser | src/ic_swipe_backend/src/lib.rs:104-108 | The record of `p` becomes `d`; every other record and the token table are unchanged. |
| Ledger.WithTokenBalance | src/ic_swipe_backend/src/lib.rs:120-130 | The balance reads back as `b`; zero removes the key and a positive value stores it; no other key or record changes; the table never comes to hold a zero. |
| Ledger.SetDefaultStep | src/ic_swipe_backend/src/lib.rs:155-161 | Returns `amount`, stores it as the caller's default and leaves the caller's balance and totals, other users and the token table unchanged. |
| Ledger.DepositStep | src/ic_swipe_backend/src/lib.rs:173-195 | Fails exactly for a zero amount, then changes nothing and reports 0. Otherwise balance and total deposits both grow by `amount`, and the reported balance is the stored one. |
| Ledger.SwapIcpToTokenStep | src/ic_swipe_backend/src/lib.rs:207-248 | Succeeds exactly when 0 < amount <= ICP balance. A failure changes nothing and reports 0 (zero amount) or the current balance. A success moves `amount` from ICP to the token (their sum is conserved), counts it in total swaps, reports both new balances and touches no other key. |
| Ledger.SwapTokenToIcpStep | src/ic_swipe_backend/src/lib.rs:252-292 | Succeeds exactly when 0 < amount <= token balance. A failure changes nothing, reports an ICP balance of 0 and, for a positive amount, the held balance. A success moves `amount` back to ICP without counting a swap. |
| Ledger.Canister.UpdateUserData | src/ic_swipe_backend/src/lib.rs:104-108 | The stored state becomes `WithUser` of the old one. |
| Ledger.Canister.UpdateUserTokenBalance | src/ic_swipe_backend/src/lib.rs:120-130 | The stored state becomes `WithTokenBalance` of the old one. |
| Ledger.Canister.GetAllUserTokenBalances | src/ic_swipe_backend/src/lib.rs:133-149 | The loop over the whole table returns exactly the caller's keys, prefix stripped, with their balances. |
| Ledger.Canister.SetDefaultSwapAmount | src/ic_swipe_backend/src/lib.rs:155-161 | New state and result are those of `SetDefaultStep`; no zero balance is ever stored. |
| Ledger.Canister.GetDefaultSwapAmount | src/ic_swipe_backend/src/lib.rs:165-169 | An unknown caller's default is 0; a known caller's is the stored one. |
| Ledger.Canister.DepositIcp | src/ic_swipe_backend/src/lib.rs:173-195 | New state and result are those of `DepositStep`. |
| Ledger.Canister.GetUserIcpBalance | src/ic_swipe_backend/src/lib.rs:199-203 | An unknown caller's balance is 0; a known caller's is the stored one. |
| Ledger.Canister.SwapIcpToToken | src/ic_swipe_backend/src/lib.rs:207-248 | New state and result are those of `SwapIcpToTokenStep`. |
| Ledger.Canister.SwapTokenToIcp | src/ic_swipe_backend/src/lib.rs:252-292 | New state and result are those of `SwapTokenToIcpStep`. |
| Ledger.Canister.GetUserPortfolio | src/ic_swipe_backend/src/lib.rs:296-311 | Reports the caller's record, and lists each of the caller's tokens exactly once with its stored balance and nothing else. |
| Ledger.EntriesOf | src/ic_swipe_backend/src/lib.rs:302 | The loop lists each pair of the map exactly once. |
| Ledger.Canister.GetTokenBalance | src/ic_swipe_backend/src/lib.rs:315-318 | A missing key reads as 0 and a present one as its stored balance; in a valid table the answer is positive exactly when the caller holds the token. |
| LedgerProperties.FirstColonEndsPrincipal | src/ic_swipe_backend/src/lib.rs:111-117 | In the key of a colon-free principal, the first colon sits right after the principal. |
| LedgerProperties.KeyInjective | src/ic_swipe_backend/src/lib.rs:120-130 | For colon-free principals the composite key determines both principal and token. |
| LedgerProperties.PrefixScanExcludesOthers | src/ic_swipe_backend/src/lib.rs:133-149 | The prefix scan for one principal never picks up another principal's key. |
| LedgerProperties.SwapsLeaveOtherHoldings | src/ic_swipe_backend/src/lib.rs:207-292 | A swap in either direction leaves every other (principal, token) balance unchanged. |
| LedgerProperties.SwapRoundTrip | src/ic_swipe_backend/src/lib.rs:207-292 | After a successful swap of an amount into a token, swapping it back also succeeds and restores the ICP balance and the whole token table. Only total swaps keep the increase. |
| LedgerProperties.SetThenGetDefault | src/ic_swipe_backend/src/lib.rs:155-169 | After `set_default_swap_amount(a)`, `get_default_swap_amount` answers `a`, and balance and totals are unchanged. |
| Gesture.Classify | src/ic_swipe_frontend/src/components/SwipePage.jsx:243-257 | A release further than 100 px to the right buys, to the left skips; anything within 100 px snaps back. |
| Gesture.ExitPose | src/ic_swipe_frontend/src/components/SwipePage.jsx:246-251 | The card leaves fully transparent, to the right exactly for a buy. |
| Gesture.Advance | src/ic_swipe_frontend/src/components/SwipePage.jsx:219-222 | The cursor moves by one exactly when a next card exists, and never leaves the list. |
| Gesture.AdvanceTimesFromStart | src/ic_swipe_frontend/src/components/NeuralHuntPage.jsx:200-202 | From the first card, `n` decisions leave the cursor on card min(n, length-1). |
| Gesture.LastCardIsSticky | src/ic_swipe_frontend/src/components/NeuralHuntPage.jsx:217-219 | On the last card, any number of further decisions keeps the cursor there. |
| Toasts.GetIcon | src/ic_swipe_frontend/src/components/Toast.jsx:16-27 | A check for success, a cross for error and an info sign otherwise, coloured by the type's tone (green, red, or blue for every other type). |
| Toasts.GetBorderColor | src/ic_swipe_frontend/src/components/Toast.jsx:29-40 | The border class agrees with the type's tone. |
| Toasts.GetBackgroundColor | src/ic_swipe_frontend/src/components/Toast.jsx:42-53 | The background class agrees with the type's tone. |
| Toasts.AutoCloseDelay | src/ic_swipe_frontend/src/components/Toast.jsx:8-10 | The delay is the toast's duration, or 3000 ms when it has none; never zero. |
| Toasts.Render | src/ic_swipe_frontend/src/components/Toast.jsx:57-94 | Something is drawn exactly when there is a toast. The heading appears exactly when the title is non-empty. The message and the style lookups are those of the toast's own type. |
| Toasts.ToastSlot.Post | src/ic_swipe_frontend/src/components/Toast.jsx:6-14 | A new toast replaces the old one and clears its timer; a present toast gets a fresh timer with its own delay and a handle never used before. |
| Toasts.ToastSlot.CloseClicked | src/ic_swipe_frontend/src/components/Toast.jsx:89 | Closing removes the toast and its timer. |
| Toasts.ToastSlot.TimerFires | src/ic_swipe_frontend/src/components/Toast.jsx:8-13 | Only the live timer closes the toast; a cleared timer firing changes nothing. |
| Catalog.BaseTokens | src/ic_swipe_frontend/src/components/SwipePage.jsx:10-98 | Five tokens with ids 1 to 5, each showing its own name and symbol. |
| Catalog.BlueChipsShowDogecoin | src/ic_swipe_frontend/src/components/SwipePage.jsx:114-132 | As written, the Bitcoin entry is displayed as Dogecoin with the symbol DOGE, and the Ethereum entry as Shiba Inu with the symbol SHIB. |
| Catalog.BlueChip | src/ic_swipe_frontend/src/components/SwipePage.jsx:114-132 | The corrected blue-chip entry shows its own name and symbol. |
| Catalog.BlueChips | src/ic_swipe_frontend/src/components/SwipePage.jsx:114-132 | The corrected blue-chips list is BTC then ETH, each shown under its own name and symbol. |
| Catalog.IdentityFacts | src/ic_swipe_frontend/src/components/SwipePage.jsx:100-139 | Any per-entry rewrite of the base tokens keeps the symbols DOGE, SHIB, PEPE, FLOKI, BABYDOGE, the ids 1 to 5 and the display names. |
| Catalog.RiskyDegens | src/ic_swipe_frontend/src/components/SwipePage.jsx:102-107 | Each base token with a random price change and 30% of its liquidity; its other figures, icon, score and AI details stay those of the base token. |
| Catalog.NewlyLaunched | src/ic_swipe_frontend/src/components/SwipePage.jsx:108-113 | Each base token created within the last week, with a tenth of its market cap; its other figures, icon, score and AI details stay those of the base token. |
| Catalog.AiAnalyzed | src/ic_swipe_frontend/src/components/SwipePage.jsx:133-137 | Each base token with a score of 60 plus a draw below 40; its figures, icon and AI details stay those of the base token. |
| Catalog.GetMockTokens | src/ic_swipe_frontend/src/components/SwipePage.jsx:9-141 | Never empty. Blue chips are BTC and ETH named Bitcoin and Ethereum, yet displayed as Dogecoin and Shiba Inu with the symbols DOGE and SHIB. Every other category is the five base tokens in order, unchanged for meme coins and unknown categories, each displaying its own name. Risky, newly-launched and AI-analyzed entries carry their category's figures. |
| Catalog.GetMockTokensIntended | src/ic_swipe_frontend/src/components/SwipePage.jsx:114-132 | The corrected catalog: the same entries and symbols as `GetMockTokens`, identical outside blue chips, differing only in a `baseToken` that names each entry after itself, so every entry shows its own name and symbol. |
| Catalog.CategoryTitle | src/ic_swipe_frontend/src/components/SwipePage.jsx:259-268 | The five known categories read "Meme Coins", "Risky Degens", "Newly Launched", "Blue Chips" and "AI Analyzed"; the title is "Tokens" exactly for an unknown category. |
| SwipePage.TrustScoreOf | src/ic_swipe_frontend/src/components/SwipePage.jsx:157 | A trust score is between 40 and 99. |
| SwipePage.SwipeSession.constructor | src/ic_swipe_frontend/src/components/SwipePage.jsx:154-160 | Mounting loads the category's tokens as `getMockTokens` builds them (blue chips included, as written) with the cursor on the first card and a drawn trust score; there is always a current card. |
| SwipePage.BlueChipsBuyAnnouncesDogecoin | src/ic_swipe_frontend/src/components/SwipePage.jsx:205-212 | Buying the first blue-chips card (Bitcoin) announces "Dogecoin added to your portfolio". |
| SwipePage.SwipeSession.HandleBuy | src/ic_swipe_frontend/src/components/SwipePage.jsx:205-223 | Announces the current token, then applies the cursor rule; the trust score is redrawn exactly when the cursor moves. |
| SwipePage.SwipeSession.HandleSkip | src/ic_swipe_frontend/src/components/SwipePage.jsx:225-241 | The same as a buy, with the skip notification. |
| SwipePage.SwipeSession.HandleDragEnd | src/ic_swipe_frontend/src/components/SwipePage.jsx:243-257 | A short release changes nothing; a long one buys or skips the current token, redrawing the trust score exactly when the cursor moves; the card ends at rest. |
| SwipePage.SwipeSession.Title | src/ic_swipe_frontend/src/components/SwipePage.jsx:259-268 | The header is the category's title, "Tokens" exactly for an unknown category. |
| HuntPage.NoticeToast | src/ic_swipe_frontend/src/components/NeuralHuntPage.jsx:115-214 | Only a purchase is a success and only a skip is info; the durations are 5000, 2000 or 4000 ms; a failed swap shows the backend's message or the default text. |
| HuntPage.Precheck | src/ic_swipe_frontend/src/components/NeuralHuntPage.jsx:115-145 | A buy passes exactly when signed in with 0 < default amount <= balance; otherwise the first failing check names the refusal. |
| HuntPage.BuyStep | src/ic_swipe_frontend/src/components/NeuralHuntPage.jsx:113-203 | The wallet is called exactly when the checks pass, with the card's trade symbol and the default amount. A refusal only posts its notice. After a call the balance takes the backend's figure only on success, the in-flight flag is cleared and the cursor rule applies. |
| HuntPage.SkipStep | src/ic_swipe_frontend/src/components/NeuralHuntPage.jsx:205-220 | A skip posts the skip notice and applies the cursor rule, nothing else. |
| HuntPage.DragEndStep | src/ic_swipe_frontend/src/components/NeuralHuntPage.jsx:222-238 | A short release changes nothing; a long one buys or skips. |
| HuntPage.Run | src/ic_swipe_frontend/src/components/NeuralHuntPage.jsx:113-238 | After any actions the cursor is still on a card. |
| HuntPage.RunKeepsCursorInRange | src/ic_swipe_frontend/src/components/NeuralHuntPage.jsx:113-238 | Whatever the user does, the token list stays the same, the cursor never moves back or leaves the list, and no swap is left in flight. |
| HuntPage.BalanceComesFromBackend | src/ic_swipe_frontend/src/components/NeuralHuntPage.jsx:164-167 | The page never computes a balance: the balance is the initial one or one a successful swap reply reported. |
| HuntPage.ThreeTokenScenario | src/ic_swipe_frontend/src/components/NeuralHuntPage.jsx:113-220 | Skip, successful buy, refused buy on three tokens: the cursor, balances, wallet calls and notices come out as the code dictates, and equal balance and amount still proceed. |
| HuntPage.HuntSession.constructor | src/ic_swipe_frontend/src/components/NeuralHuntPage.jsx:42-51 | The page starts on the first generated token, nothing in flight and no notice. |
| HuntPage.HuntSession.HandleBuy | src/ic_swipe_frontend/src/components/NeuralHuntPage.jsx:113-203 | The new page state and the wallet calls made are those of `BuyStep`. |
| HuntPage.HuntSession.HandleSkip | src/ic_swipe_frontend/src/components/NeuralHuntPage.jsx:205-220 | The new page state is that of `SkipStep`, with no wallet call. |
| HuntPage.HuntSession.HandleDragEnd | src/ic_swipe_frontend/src/components/NeuralHuntPage.jsx:222-238 | The new state and calls are those of `DragEndStep`; the card ends at rest. |
| Tokens.DisplayName | src/ic_swipe_frontend/src/components/NeuralHuntPage.jsx:153 | The `baseToken` name when it is non-empty, otherwise the token's own name. |
| Tokens.TradeSymbol | src/ic_swipe_frontend/src/components/NeuralHuntPage.jsx:152 | The `baseToken` symbol when it is non-empty, otherwise the token's own symbol. |
| Text.NatText | src/ic_swipe_frontend/src/services/aiService.js:105-106 | The decimal text of a number: at least one digit, and a leading zero only for zero. |
| Text.NatTextRoundTrip | src/ic_swipe_frontend/src/services/aiService.js:105-106 | Reading the decimal text back gives the number. |
| Text.IcpText | src/ic_swipe_frontend/src/components/NeuralHuntPage.jsx:141 | The text is the whole ICP, a point and two digits worth the minor units modulo 100. |
| Text.FirstIndexOf | src/ic_swipe_frontend/src/components/Navbar.jsx:52 | The first position of a character, or none exactly when it does not occur. |
| Text.LastIndexOf | src/ic_swipe_frontend/src/services/aiService.js:85 | The last position of a character, or none exactly when it does not occur. |
| AiService.ExtractJsonArray | src/ic_swipe_frontend/src/services/aiService.js:84-89 | There is a match exactly when some ']' follows some '['. The match runs from the first '[' to the last ']' and starts and ends with them. |
| AiService.Quoting | src/ic_swipe_frontend/src/services/aiService.js:117 | The sentence contains the user's prompt. |
| AiService.Prewritten | src/ic_swipe_frontend/src/services/aiService.js:139-160 | A pre-written token is AI-tagged, carries its details, and shows and trades under its own name and symbol. |
| AiService.NeuralToken | src/ic_swipe_frontend/src/services/aiService.js:139-160 | Id 1, symbol NEURAL, AI-tagged, with reasoning quoting the prompt. |
| AiService.QuantumToken | src/ic_swipe_frontend/src/services/aiService.js:161-182 | Id 2, symbol QLAP, AI-tagged, with reasoning quoting the prompt. |
| AiService.ContractToken | src/ic_swipe_frontend/src/services/aiService.js:183-204 | Id 3, symbol SCAI, AI-tagged, with reasoning quoting the prompt. |
| AiService.MetaverseToken | src/ic_swipe_frontend/src/services/aiService.js:205-226 | Id 4, symbol MVBLD, AI-tagged, with reasoning quoting the prompt. |
| AiService.PrewrittenToken | src/ic_swipe_frontend/src/services/aiService.js:138-227 | The pre-written token at position k has id k+1, symbol NEURAL, QLAP, SCAI or MVBLD, and all pre-written properties. |
| AiService.FallbackTokens | src/ic_swipe_frontend/src/services/aiService.js:136-231 | Four tokens with ids 1 to 4 and symbols NEURAL, QLAP, SCAI, MVBLD in that order, each AI-tagged, named, and explaining itself in terms of the prompt. |
| AiService.ValidateFigures | src/ic_swipe_frontend/src/services/aiService.js:107-114 | Truthy price, market cap, fdv, liquidity and creation time are kept. A missing one is replaced by a draw in the code's range: price in [0, 0.001), market cap in [100000, 10100000), liquidity in [10000, 110000), fdv the market cap plus less than 1000000, creation time within the last 90 days. With both fdv and market cap missing, the fdv is the fdv draw alone. |
| AiService.ValidateDetails | src/ic_swipe_frontend/src/services/aiService.js:116-121 | Category and risk default to "AI" and "Medium". Given reasoning is kept; missing reasoning quotes the prompt. Volume and holders are never zero: a given value is kept, a missing one drawn from [50000, 550000) or [100, 5100). |
| AiService.ValidateToken | src/ic_swipe_frontend/src/services/aiService.js:103-124 | Id, name and symbol default to index+1, "AI Token <n>" and "AI<n>". The icon is AI and the details are those validated. Whatever the element lacked, the id is non-zero and the card has a name and a symbol. |
| AiService.ReplyText | src/ic_swipe_frontend/src/services/aiService.js:5-9 | There is text exactly when a key is set, the response is ok, its body parsed and it has a non-empty candidate text. |
| AiService.ParsedItems | src/ic_swipe_frontend/src/services/aiService.js:84-97 | Items exist exactly when an array was extracted, parsed to an array and is non-empty. |
| AiService.Normalise | src/ic_swipe_frontend/src/services/aiService.js:100-124 | Succeeds exactly when none of the first five elements is null. The result holds min(5, n) tokens, element i being its validated token. |
| AiService.GenerateTokens | src/ic_swipe_frontend/src/services/aiService.js:5-133 | Always one to five AI-tagged tokens, each with details, a name and a symbol. Every failed stage (no key, request, body, match, parse, empty array, null element) yields exactly the fallback tokens. Otherwise it yields the normalised ones. |
| TokenCard.GetScoreColor | src/ic_swipe_frontend/src/components/TokenCard.jsx:125-130 | Green, yellow, orange or red exactly for the bands from 80, 60, 40 and below 40. |
| TokenCard.GetScoreLabel | src/ic_swipe_frontend/src/components/TokenCard.jsx:132-137 | High, Medium, Low or Very Low Trust exactly for the same bands. |
| TokenCard.ColourAgreesWithLabel | src/ic_swipe_frontend/src/components/TokenCard.jsx:125-137 | Two scores share a colour exactly when they share a label. |
| TokenCard.LitDots | src/ic_swipe_frontend/src/components/TokenCard.jsx:142-147 | Five dots; dot i is lit exactly when the score reaches 20(i+1). |
| TokenCard.DotClasses | src/ic_swipe_frontend/src/components/TokenCard.jsx:142-147 | A lit dot takes the score's colour, an unlit one grey. |
| TokenCard.DrawnScoresLightTwoToFourDots | src/ic_swipe_frontend/src/components/TokenCard.jsx:142-147 | Every drawn trust score (40 to 99) lights the first two dots, never the fifth, and is never "Very Low Trust". |
| TokenCard.FormatNumber | src/ic_swipe_frontend/src/components/TokenCard.jsx:164-169 | B, M, K or no suffix exactly for the ranges from 1e9, 1e6, 1e3 and below. The mantissa times the suffix's scale is the number. Below a trillion a suffixed mantissa lies in [1, 1000). |
| TokenCard.IconSymbol | src/ic_swipe_frontend/src/components/TokenCard.jsx:114-121 | The card's trade symbol, or "?" when it has none; never empty. |
| TokenCard.DefaultLabel | src/ic_swipe_frontend/src/components/TokenCard.jsx:114-121 | The first three characters of the symbol, or "?"; one to three characters. |
| TokenCard.GetSvgIcon | src/ic_swipe_frontend/src/components/TokenCard.jsx:172-186 | A token's own element is used exactly on AI cards. A table icon is used exactly for a table key other than DEFAULT. Every other case falls back to the DEFAULT badge, which shows the start of the card's symbol. |
| TokenCard.RiskTone | src/ic_swipe_frontend/src/components/TokenCard.jsx:249-253 | Green exactly for "Low", yellow exactly for "Medium", red for everything else. |
| TokenCard.RiskBadge | src/ic_swipe_frontend/src/components/TokenCard.jsx:249-253 | All three badge classes follow the risk tone. |
| TokenCard.UnknownRiskLooksHigh | src/ic_swipe_frontend/src/components/TokenCard.jsx:249-253 | Any level other than Low or Medium is drawn exactly like "High". |
| TokenCard.ShownTiles | src/ic_swipe_frontend/src/components/TokenCard.jsx:288-324 | The tiles kept are exactly the shown ones, in layout order. |
| TokenCard.LayoutIsComplete | src/ic_swipe_frontend/src/components/TokenCard.jsx:288-324 | The grid's layout lists every statistic once, in increasing order. |
| TokenCard.VisibleStats | src/ic_swipe_frontend/src/components/TokenCard.jsx:288-324 | A tile appears exactly when its condition holds (volume and holders on AI cards, FDV on others), in grid order; the liquidity tile is always shown, and first. |
| TokenCard.FdvExcludesAiStats | src/ic_swipe_frontend/src/components/TokenCard.jsx:307-324 | A card never shows FDV next to volume or holders. |
| TokenCard.ShowsRiskBadge | src/ic_swipe_frontend/src/components/TokenCard.jsx:241-256 | The risk badge is shown exactly on AI cards with details and a risk level. |
| Navbar.NavigationItems | src/ic_swipe_frontend/src/components/Navbar.jsx:14-47 | Five items: three public, enabled pages, then two disabled pages for signed-in users. |
| Navbar.BasePath | src/ic_swipe_frontend/src/components/Navbar.jsx:52 | The part of the path before the first '?': a prefix without '?', cut exactly at a '?'. |
| Navbar.IsActivePath | src/ic_swipe_frontend/src/components/Navbar.jsx:50-61 | The home item is active only on "/" itself; any other item whenever the route starts with its base path. |
| Navbar.QueryIsIgnored | src/ic_swipe_frontend/src/components/Navbar.jsx:52 | An item's query string plays no part in the highlight. |
| Navbar.PrefixIsNotSegment | src/ic_swipe_frontend/src/components/Navbar.jsx:55-58 | "/profile" is highlighted on "/profiles", and home is not highlighted on "/profile". |
| Navbar.FilterVisible | src/ic_swipe_frontend/src/components/Navbar.jsx:64-71 | Keeps exactly the items visible to the visitor. |
| Navbar.VisibleNavItems | src/ic_swipe_frontend/src/components/Navbar.jsx:64-71 | An item is listed exactly when it is defined and visible. |
| Navbar.FilterKeepsVisiblePrefix | src/ic_swipe_frontend/src/components/Navbar.jsx:64-71 | When the visible items form a prefix, the filter returns that prefix. |
| Navbar.SignedInSeesEveryItem | src/ic_swipe_frontend/src/components/Navbar.jsx:64-71 | Signed in, the bar lists every item in order. |
| Navbar.AnonymousSeesPublicPages | src/ic_swipe_frontend/src/components/Navbar.jsx:64-71 | Anonymous, the bar lists the three public pages in order. |
| Navbar.LinkTarget | src/ic_swipe_frontend/src/components/Navbar.jsx:145 | A disabled item links to "#", any other to its path. |
| Navbar.PrincipalLabel | src/ic_swipe_frontend/src/components/Navbar.jsx:184-186 | The placeholder reads "Connected"; any other principal is cut to 8 characters plus "...". |
| Navbar.NavBar.ToggleMenu | src/ic_swipe_frontend/src/components/Navbar.jsx:110 | The menu flips; nothing else changes. |
| Navbar.NavBar.ClickItem | src/ic_swipe_frontend/src/components/Navbar.jsx:145-155 | A disabled item changes nothing; any other closes the menu and routes to the item's base path. |
| Navbar.NavBar.HandleRefresh | src/ic_swipe_frontend/src/components/Navbar.jsx:83-87 | `onRefresh` runs exactly when given and not already refreshing. |
| Navbar.NavBar.MobileRefresh | src/ic_swipe_frontend/src/components/Navbar.jsx:220 | The same guard, and the menu closes whatever the guard says. |
| Navbar.NavBar.Logout | src/ic_swipe_frontend/src/components/Navbar.jsx:73-81 | A successful logout closes the menu and routes home; a failed one changes nothing. |
| Navbar.NavBar.MobileLogout | src/ic_swipe_frontend/src/components/Navbar.jsx:273-276 | The mobile entry closes the menu whatever logout does; a successful logout also routes home. |
| Navbar.ClickedItemIsActive | src/ic_swipe_frontend/src/components/Navbar.jsx:50-61 | Following an enabled item highlights it. |
| NeuralHunt.Initial | src/ic_swipe_frontend/src/components/NeuralHunt.jsx:7-10 | The mounted card is consistent, closed and idle. |
| NeuralHunt.SuggestedPrompts | src/ic_swipe_frontend/src/components/NeuralHunt.jsx:48-54 | Five suggestions, none blank. |
| NeuralHunt.EnterStep | src/ic_swipe_frontend/src/components/NeuralHunt.jsx:13-16 | Hover starts and one more reveal timer is pending; prompt and generation are untouched. |
| NeuralHunt.RevealStep | src/ic_swipe_frontend/src/components/NeuralHunt.jsx:15 | A firing timer opens the input whatever the hover is by then. |
| NeuralHunt.LeaveStep | src/ic_swipe_frontend/src/components/NeuralHunt.jsx:18-23 | Leaving collapses the card exactly when the prompt is empty and nothing is loading; pending timers are not cancelled. |
| NeuralHunt.TypeStep | src/ic_swipe_frontend/src/components/NeuralHunt.jsx:153 | Typing sets the prompt and never touches a running generation's prompt. |
| NeuralHunt.SuggestionStep | src/ic_swipe_frontend/src/components/NeuralHunt.jsx:168-171 | A click sets the prompt to one of the first three suggestions, which is never blank. |
| NeuralHunt.StartStep | src/ic_swipe_frontend/src/components/NeuralHunt.jsx:25-28 | A blank prompt changes nothing. Otherwise loading starts with the current prompt captured. |
| NeuralHunt.ButtonStep | src/ic_swipe_frontend/src/components/NeuralHunt.jsx:183 | The button starts a generation exactly when the prompt is not blank and nothing is loading. |
| NeuralHunt.KeyStep | src/ic_swipe_frontend/src/components/NeuralHunt.jsx:42-46 | Enter starts only when nothing is loading; any other key, or Enter while loading, changes nothing. |
| NeuralHunt.SettleStep | src/ic_swipe_frontend/src/components/NeuralHunt.jsx:29-39 | `onStartTrading` is called once with the captured prompt and one to five AI-tagged tokens: the fallback ones when generation threw. Then loading stops. |
| NeuralHunt.Apply | src/ic_swipe_frontend/src/components/NeuralHunt.jsx:13-54 | Every event keeps the card consistent. A callback happens exactly when a running generation stops. Nothing but its end changes a running generation. |
| NeuralHunt.RunAnswersEveryStart | src/ic_swipe_frontend/src/components/NeuralHunt.jsx:25-46 | Over any events, every generation started is answered by exactly one callback, except the one still running. Each callback carries a non-blank prompt and one to five AI-tagged tokens. |
| NeuralHunt.FromMountCallsNeverOutnumberStarts | src/ic_swipe_frontend/src/components/NeuralHunt.jsx:25-46 | From mount, callbacks never outnumber starts, and the card is loading exactly when one start is unanswered. |
| NeuralHunt.LeaveBeforeRevealStillReveals | src/ic_swipe_frontend/src/components/NeuralHunt.jsx:13-23 | Leaving before the 300 ms timer fires still opens the input afterwards, on an unhovered card. |
| NeuralHunt.PromptPanel.constructor | src/ic_swipe_frontend/src/components/NeuralHunt.jsx:7-10 | The component starts in the initial state with no callbacks. |
| NeuralHunt.PromptPanel.HandleMouseEnter | src/ic_swipe_frontend/src/components/NeuralHunt.jsx:13-16 | The new state is `EnterStep` of the old one. |
| NeuralHunt.PromptPanel.FireReveal | src/ic_swipe_frontend/src/components/NeuralHunt.jsx:15 | The new state is `RevealStep` of the old one. |
| NeuralHunt.PromptPanel.HandleMouseLeave | src/ic_swipe_frontend/src/components/NeuralHunt.jsx:18-23 | The new state is `LeaveStep` of the old one. |
| NeuralHunt.PromptPanel.HandleChange | src/ic_swipe_frontend/src/components/NeuralHunt.jsx:153 | The new state is `TypeStep` of the old one. |
| NeuralHunt.PromptPanel.ClickSuggestion | src/ic_swipe_frontend/src/components/NeuralHunt.jsx:168-171 | The new state is `SuggestionStep` of the old one. |
| NeuralHunt.PromptPanel.HandleStartTrading | src/ic_swipe_frontend/src/components/NeuralHunt.jsx:25-28 | The new state is `StartStep` of the old one. |
| NeuralHunt.PromptPanel.PressStartButton | src/ic_swipe_frontend/src/components/NeuralHunt.jsx:181-183 | The new state is `ButtonStep` of the old one. |
| NeuralHunt.PromptPanel.HandleKeyPress | src/ic_swipe_frontend/src/components/NeuralHunt.jsx:42-46 | The new state is `KeyStep` of the old one. |
| NeuralHunt.PromptPanel.FinishStartTrading | src/ic_swipe_frontend/src/components/NeuralHunt.jsx:29-39 | The new state and the one appended callback are those of `SettleStep`. |

## Left out

- u64 arithmetic in lib.rs: balances and totals are `nat`. The unguarded `+=` on deposits and swaps can overflow in the canister, and no overflow safety is claimed.
- Candid encoding, `Storable`, `MemoryManager` and the stable maps: these are foreign libraries. The maps are Dafny `map`s and `caller()` is a parameter.
- `whoami`, `greet` and `get_all_users_count`: trivial, and not used by the modelled pages.
- The textual form of the backend's messages: `TxMessage` keeps their parameters. `InsufficientIcp` carries the available and required amounts.
- `LedgerProperties.KeyInjective` and `LedgerProperties.PrefixScanExcludesOthers`: they require colon-free principals. Textual principals are base-32 groups joined by '-'.
- Floating-point display: `toFixed`, the `/100` ICP display and `formatNumber`'s digits are exact reals or decimal text. `TokenCard.FormatNumber` states only the suffix and the scaled value.
- `liquidity * 0.3` and `marketCap * 0.1` in the catalog are exact reals.
- `Math.random` and `Date.now()`: every draw is a parameter bounded to the range the code draws from, and the clock is a parameter. The rendered price changes (`toFixed(2)` of a draw) are arbitrary strings.
- The HTTP request to the generation service and the prompt text sent with it: the response is a parameter.
- `JSON.parse`: it is a parameter function.
- Field types the generation service might return other than the expected ones: strings, numbers, objects.
- `url`, `website` and `twitter`: not read by the modelled pages.
- `AiService.ValidateFigures`: an fdv that is NaN, because both fdv and market cap are missing, is not modelled. The missing market cap counts as 0 there, so the fdv becomes the fdv draw alone.
- `AiService.GenerateTokens`: it never throws, so `NeuralHunt`'s `Threw` outcome models the `catch` at NeuralHunt.jsx:32-36 for an implementation that could throw.
- `fetchUserData` and the other React effects that reload balances or portfolios.
- `isSwapping` disables only the buttons, not the drag, and concurrent handler runs are not modelled. React's batching and stale closures are not modelled either: each handler runs to completion on the state it reads.
- Framer Motion animations: only the card's end pose is kept.
- Toast.jsx: timers re-armed by a re-render are not modelled. The effect depends on `[toast, onClose]`, and both pages pass a `closeToast` created anew on every render, so every parent render clears and re-arms the timer. The model re-arms only on a new toast.
- `NeuralHunt.SettleStep`: `onStartTrading` is assumed not to throw. It is called inside the `try` (NeuralHunt.jsx:31), so a callback that throws would be caught and called a second time with the fallback tokens (lines 35-36); the model, and the "exactly one callback per start" of `NeuralHunt.RunAnswersEveryStart`, do not cover that case.
- `TokenCard.VisibleStats`: a zero market cap, volume or holders count is rendered by React as a stray "0" rather than nothing; the model only says that the tile is not shown.
- `TokenCard.GetSvgIcon`: icon drawings and table keys that are JavaScript prototype properties are not modelled. A table miss always falls back to `DEFAULT`.
- The principal label's CSS truncation.
- The other components and pages, routing beyond the navbar's location, and authentication itself.

## Findings

| source | as written | input that shows it | evidently intended | confidence | as-written member | corrected member |
|---|---|---|---|---|---|---|
| src/ic_swipe_frontend/src/components/SwipePage.jsx:114-132 | The blue-chip entries spread `baseTokens[0]` and `baseTokens[1]` and override name, symbol and figures, but keep `baseToken: {Dogecoin, DOGE}` and `{Shiba Inu, SHIB}`. Every page shows `baseToken?.name` and `baseToken?.symbol` first. | category "blue-chips": the Bitcoin card is shown and announced as Dogecoin (DOGE), and the Ethereum card as Shiba Inu | The entries show as Bitcoin (BTC) and Ethereum (ETH) | high (not executed) | Catalog.BlueChipsShowDogecoin | Catalog.GetMockTokensIntended |

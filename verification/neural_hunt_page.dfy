/** The AI hunt page: the swipe cursor over generated tokens, wired to the wallet. A buy
    first checks, in order, that the user is signed in, that a default swap amount is
    set and that the ICP balance covers it; only then does it call the backend's
    `swap_icp_to_token`, whose reply (or failure) is a parameter here. */
module HuntPage {
  import opened Wrappers
  import opened Text
  import opened Tokens
  import opened Gesture
  import opened Toasts

  /** The component state the handlers read and write. Balances and amounts are in
      minor units (1/100 ICP). */
  datatype Page = Page(
    authenticated: bool,
    tokens: seq<Token>,
    index: nat,
    icpBalance: nat,
    defaultSwapAmount: nat,
    isSwapping: bool,
    toast: Option<Notice>)

  /** The fields of the backend's `TransactionResult` the page reads. */
  datatype SwapReply = SwapReply(success: bool, message: string, newIcpBalance: nat)

  /** What `await auth.actor.swap_icp_to_token(...)` produced. */
  datatype SwapOutcome = Replied(reply: SwapReply) | Threw

  /** A call made to the wallet: the token symbol and the amount. */
  datatype SwapCall = SwapCall(symbol: string, amount: nat)

  datatype BuyResult = BuyResult(page: Page, call: Option<SwapCall>)

  /** The notifications the page posts. */
  datatype Notice =
    | AuthRequired
    | AmountNotSet
    | Insufficient(amount: nat, balance: nat)
    | Purchased(amount: nat, name: string, newBalance: nat)
    | SwapFailed(message: string)
    | SwapError
    | Skipped(name: string)

  /** The `setToast` argument of each notice. */
  function NoticeToast(n: Notice): (t: ToastMessage)
    ensures t.kind == "error" <==> !n.Purchased? && !n.Skipped?
    ensures t.kind == "success" <==> n.Purchased?
    ensures t.kind == "info" <==> n.Skipped?
    ensures t.duration == (if n.Insufficient? || n.Purchased? then 5000 else if n.Skipped? then 2000 else 4000)
    ensures n.SwapFailed? ==> t.message == (if n.message != "" then n.message else "Failed to swap tokens")
  {
    match n
    case AuthRequired =>
      ToastMessage("error", "Authentication Required",
                   "Please login with Internet Identity to purchase tokens", 4000)
    case AmountNotSet =>
      ToastMessage("error", "Default Amount Not Set",
                   "Please set your default swap amount in the onboarding page", 4000)
    case Insufficient(amount, balance) =>
      ToastMessage("error", "Insufficient Balance",
                   "You need " + IcpText(amount) + " ICP but only have " + IcpText(balance)
                   + " ICP. Please deposit more ICP.", 5000)
    case Purchased(amount, name, newBalance) =>
      ToastMessage("success", "Token Purchased! \U{1F680}",
                   "Successfully swapped " + IcpText(amount) + " ICP for " + name
                   + ". New ICP balance: " + IcpText(newBalance), 5000)
    case SwapFailed(message) =>
      ToastMessage("error", "Swap Failed", if message != "" then message else "Failed to swap tokens", 4000)
    case SwapError =>
      ToastMessage("error", "Swap Error", "Failed to execute swap. Please try again.", 4000)
    case Skipped(name) =>
      ToastMessage("info", "Token Skipped \U{1F44D}", "Passed on " + name, 2000)
  }

  /** The three local checks of `handleBuy`, in order: the refusal notification, or
      `None` when the swap may be attempted. */
  function Precheck(p: Page): (refusal: Option<Notice>)
    ensures refusal.None? <==> p.authenticated && 0 < p.defaultSwapAmount <= p.icpBalance
    ensures !p.authenticated ==> refusal == Some(AuthRequired)
    ensures p.authenticated && p.defaultSwapAmount == 0 ==> refusal == Some(AmountNotSet)
    ensures p.authenticated && 0 < p.defaultSwapAmount && p.icpBalance < p.defaultSwapAmount ==>
      refusal == Some(Insufficient(p.defaultSwapAmount, p.icpBalance))
  {
    if !p.authenticated then Some(AuthRequired)
    else if p.defaultSwapAmount == 0 then Some(AmountNotSet)
    else if p.icpBalance < p.defaultSwapAmount then
      Some(Insufficient(p.defaultSwapAmount, p.icpBalance))
    else None
  }

  /** `handleBuy` with the wallet's answer `outcome` (used only when the call is made). */
  function BuyStep(p: Page, outcome: SwapOutcome): (r: BuyResult)
    requires p.index < |p.tokens|
    ensures r.call.Some? <==> p.authenticated && 0 < p.defaultSwapAmount <= p.icpBalance
    // a refused buy only posts its notification
    ensures r.call.None? ==> r.page == p.(toast := Precheck(p))
    ensures r.call.Some? ==>
      && r.call.value == SwapCall(TradeSymbol(p.tokens[p.index]), p.defaultSwapAmount)
      && r.page.index == Advance(p.index, |p.tokens|)
      && !r.page.isSwapping
      && r.page.tokens == p.tokens && r.page.authenticated == p.authenticated
      && r.page.defaultSwapAmount == p.defaultSwapAmount
    // the balance is overwritten with the backend's figure, and only on success
    ensures r.call.Some? && outcome.Replied? && outcome.reply.success ==>
      && r.page.icpBalance == outcome.reply.newIcpBalance
      && r.page.toast == Some(Purchased(p.defaultSwapAmount, DisplayName(p.tokens[p.index]),
                                             outcome.reply.newIcpBalance))
    ensures r.call.Some? && outcome.Replied? && !outcome.reply.success ==>
      && r.page.icpBalance == p.icpBalance
      && r.page.toast == Some(SwapFailed(outcome.reply.message))
    ensures r.call.Some? && outcome.Threw? ==>
      r.page.icpBalance == p.icpBalance && r.page.toast == Some(SwapError)
    ensures r.page.toast.Some?
  {
    match Precheck(p)
    case Some(refusal) => BuyResult(p.(toast := Some(refusal)), None)
    case None =>
      var current := p.tokens[p.index];
      BuyResult(Settle(p, DisplayName(current), outcome).(index := Advance(p.index, |p.tokens|)),
                Some(SwapCall(TradeSymbol(current), p.defaultSwapAmount)))
  }

  /** The `try`/`catch`/`finally` around the wallet call: balance and notification from
      the outcome, and the in-flight flag cleared. */
  function Settle(p: Page, name: string, outcome: SwapOutcome): Page {
    var settled := match outcome
      case Replied(reply) =>
        if reply.success then
          p.(icpBalance := reply.newIcpBalance,
             toast := Some(Purchased(p.defaultSwapAmount, name, reply.newIcpBalance)))
        else
          p.(toast := Some(SwapFailed(reply.message)))
      case Threw => p.(toast := Some(SwapError));
    settled.(isSwapping := false)
  }

  /** `handleSkip`: no wallet call, an info notification, the cursor rule. */
  function SkipStep(p: Page): (r: Page)
    requires p.index < |p.tokens|
    ensures r == p.(toast := Some(Skipped(DisplayName(p.tokens[p.index]))), index := Advance(p.index, |p.tokens|))
    ensures r.index < |r.tokens|
  {
    p.(toast := Some(Skipped(DisplayName(p.tokens[p.index]))), index := Advance(p.index, |p.tokens|))
  }

  /** `handleDragEnd`: a short release changes nothing; a long one buys or skips. */
  function DragEndStep(p: Page, offsetX: real, outcome: SwapOutcome): (r: BuyResult)
    requires p.index < |p.tokens|
    ensures -Threshold <= offsetX <= Threshold ==> r == BuyResult(p, None)
    ensures offsetX > Threshold ==> r == BuyStep(p, outcome)
    ensures offsetX < -Threshold ==> r == BuyResult(SkipStep(p), None)
  {
    match Classify(offsetX)
    case SnapBack => BuyResult(p, None)
    case Buy => BuyStep(p, outcome)
    case Skip => BuyResult(SkipStep(p), None)
  }

  /** One user action on the page. */
  datatype Action = BuyPressed(outcome: SwapOutcome) | SkipPressed | Released(offsetX: real, outcome: SwapOutcome)

  function Step(p: Page, a: Action): (r: BuyResult)
    requires p.index < |p.tokens|
  {
    match a
    case BuyPressed(outcome) => BuyStep(p, outcome)
    case SkipPressed => BuyResult(SkipStep(p), None)
    case Released(offsetX, outcome) => DragEndStep(p, offsetX, outcome)
  }

  /** The page after a sequence of actions. */
  function Run(p: Page, actions: seq<Action>): (r: Page)
    requires p.index < |p.tokens|
    ensures r.index < |r.tokens|
    decreases |actions|
  {
    if actions == [] then p
    else
      var first := Step(p, actions[0]);
      Run(first.page, actions[1..])
  }

  /** Whatever the user does, the token list stays the same, the cursor never moves back
      and never leaves the list, and no swap is left marked in flight. */
  lemma {:induction false} RunKeepsCursorInRange(p: Page, actions: seq<Action>)
    requires p.index < |p.tokens| && !p.isSwapping
    ensures var q := Run(p, actions);
      && q.tokens == p.tokens
      && p.index <= q.index < |p.tokens|
      && !q.isSwapping
    decreases |actions|
  {
    if actions != [] {
      RunKeepsCursorInRange(Step(p, actions[0]).page, actions[1..]);
    }
  }

  /** The balances a successful swap reply among `actions` reported. */
  function ReportedBalances(actions: seq<Action>): set<nat>
    decreases |actions|
  {
    if actions == [] then {}
    else
      var here := match actions[0]
        case BuyPressed(Replied(reply)) => if reply.success then {reply.newIcpBalance} else {}
        case Released(_, Replied(reply)) => if reply.success then {reply.newIcpBalance} else {}
        case _ => {};
      here + ReportedBalances(actions[1..])
  }

  /** The page never computes a balance itself: after any actions the ICP balance is the
      one it started with or one a successful swap reply reported. */
  lemma {:induction false} BalanceComesFromBackend(p: Page, actions: seq<Action>)
    requires p.index < |p.tokens|
    ensures Run(p, actions).icpBalance in {p.icpBalance} + ReportedBalances(actions)
    decreases |actions|
  {
    if actions != [] {
      var first := Step(p, actions[0]).page;
      BalanceComesFromBackend(first, actions[1..]);
      assert first.icpBalance in {p.icpBalance} + ReportedBalances(actions[..1]);
      assert ReportedBalances(actions) == ReportedBalances(actions[..1]) + ReportedBalances(actions[1..]);
    }
  }

  /** Three tokens, signed in, default amount 5.00 ICP, balance 10.00 ICP: skip the first,
      buy the second (the backend answers with 5.00 ICP left), buy the third (equal
      balance and amount still proceed; the backend refuses with "slippage"). The cursor
      ends on the third token, the balance at 5.00 ICP, two swaps were requested and the
      last notification carries the backend's message. */
  lemma ThreeTokenScenario(a: Token, b: Token, c: Token)
    ensures var p := Page(true, [a, b, c], 0, 1000, 500, false, None);
      var s1 := SkipStep(p);
      var s2 := BuyStep(s1, Replied(SwapReply(true, "", 500)));
      var s3 := BuyStep(s2.page, Replied(SwapReply(false, "slippage", 0)));
      && s1.index == 1 && s1.toast == Some(Skipped(DisplayName(a)))
      && s2.call == Some(SwapCall(TradeSymbol(b), 500))
      && s2.page.index == 2 && s2.page.icpBalance == 500
      && s2.page.toast == Some(Purchased(500, DisplayName(b), 500))
      && s3.call == Some(SwapCall(TradeSymbol(c), 500))
      && s3.page.index == 2 && s3.page.icpBalance == 500
      && s3.page.toast == Some(SwapFailed("slippage"))
      && NoticeToast(s3.page.toast.value) == ToastMessage("error", "Swap Failed", "slippage", 4000)
  {
  }

  /** The page's component state, together with the card pose and a record of the
      wallet calls made. */
  class HuntSession {
    var authenticated: bool
    var tokens: seq<Token>
    var currentTokenIndex: nat
    var icpBalance: nat
    var defaultSwapAmount: nat
    var isSwapping: bool
    var toast: Option<Notice>
    var pose: Pose
    var swapCalls: seq<SwapCall>

    function Snapshot(): Page
      reads this
    {
      Page(authenticated, tokens, currentTokenIndex, icpBalance, defaultSwapAmount, isSwapping, toast)
    }

    predicate Valid()
      reads this
    {
      currentTokenIndex < |tokens|
    }

    /** The page with the generated tokens it was navigated to, and the default amount
        and balance its effects fetched. */
    constructor (authenticated: bool, tokens: seq<Token>, defaultSwapAmount: nat, icpBalance: nat)
      requires |tokens| > 0
      ensures Valid() && !isSwapping && toast == None && pose == Rest && swapCalls == []
      ensures Snapshot() == Page(authenticated, tokens, 0, icpBalance, defaultSwapAmount, false, None)
    {
      this.authenticated := authenticated;
      this.tokens := tokens;
      currentTokenIndex := 0;
      this.icpBalance := icpBalance;
      this.defaultSwapAmount := defaultSwapAmount;
      isSwapping := false;
      toast := None;
      pose := Rest;
      swapCalls := [];
    }

    method HandleBuy(outcome: SwapOutcome)
      requires Valid()
      modifies this
      ensures Valid()
      ensures var r := BuyStep(old(Snapshot()), outcome);
        Snapshot() == r.page
        && swapCalls == old(swapCalls) + (if r.call.Some? then [r.call.value] else [])
      ensures pose == old(pose)
    {
      ghost var before := Snapshot();
      if !authenticated {
        toast := Some(AuthRequired);
        assert Precheck(before) == Some(AuthRequired);
        return;
      }
      if defaultSwapAmount == 0 {
        toast := Some(AmountNotSet);
        assert Precheck(before) == Some(AmountNotSet);
        return;
      }
      if icpBalance < defaultSwapAmount {
        toast := Some(Insufficient(defaultSwapAmount, icpBalance));
        assert Precheck(before) == Some(Insufficient(defaultSwapAmount, icpBalance));
        return;
      }
      assert Precheck(before) == None;
      isSwapping := true;
      var current := tokens[currentTokenIndex];
      swapCalls := swapCalls + [SwapCall(TradeSymbol(current), defaultSwapAmount)];
      match outcome {
        case Replied(reply) =>
          if reply.success {
            icpBalance := reply.newIcpBalance;
            toast := Some(Purchased(defaultSwapAmount, DisplayName(current), reply.newIcpBalance));
          } else {
            toast := Some(SwapFailed(reply.message));
          }
        case Threw =>
          toast := Some(SwapError);
      }
      isSwapping := false;
      assert Snapshot() == Settle(before, DisplayName(current), outcome);
      if currentTokenIndex < |tokens| - 1 {
        currentTokenIndex := currentTokenIndex + 1;
      }
    }

    method HandleSkip()
      requires Valid()
      modifies this
      ensures Valid()
      ensures Snapshot() == SkipStep(old(Snapshot()))
      ensures swapCalls == old(swapCalls) && pose == old(pose)
    {
      toast := Some(Skipped(DisplayName(tokens[currentTokenIndex])));
      if currentTokenIndex < |tokens| - 1 {
        currentTokenIndex := currentTokenIndex + 1;
      }
    }

    method HandleDragEnd(offsetX: real, outcome: SwapOutcome)
      requires Valid()
      modifies this
      ensures Valid()
      ensures var r := DragEndStep(old(Snapshot()), offsetX, outcome);
        Snapshot() == r.page
        && swapCalls == old(swapCalls) + (if r.call.Some? then [r.call.value] else [])
      ensures pose == Rest
    {
      var d := Classify(offsetX);
      if d == SnapBack {
        pose := Rest;
      } else {
        pose := ExitPose(d);
        if d == Buy {
          HandleBuy(outcome);
        } else {
          HandleSkip();
        }
        pose := Rest;
      }
    }
  }
}

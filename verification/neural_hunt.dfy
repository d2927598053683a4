/** The "Neural Hunt" card: it opens its prompt input when hovered, keeps it open while
    there is text or a generation running, and hands the generated tokens (or the
    pre-written ones) to the page together with the prompt that produced them. */
module NeuralHunt {
  import opened Wrappers
  import opened Text
  import opened Tokens
  import opened AiService

  /** The component's state. `pendingReveals` counts the 300 ms timers `handleMouseEnter`
      started that have not fired yet; `inFlight` is the prompt a running
      `handleStartTrading` captured, if one is running. */
  datatype Panel = Panel(isHovered: bool, showInput: bool, prompt: string, isLoading: bool,
                         pendingReveals: nat, inFlight: Option<string>)

  /** The state on mount. */
  function Initial(): (p: Panel)
    ensures Consistent(p) && !p.showInput && !p.isLoading
  {
    Panel(false, false, "", false, 0, None)
  }

  /** What every reachable state satisfies: the spinner shows exactly while a generation
      is running, a running generation has a non-blank prompt and keeps the input open,
      and a closed input holds no text. */
  predicate Consistent(p: Panel) {
    && (p.isLoading <==> p.inFlight.Some?)
    && (p.inFlight.Some? ==> !IsBlank(p.inFlight.value))
    && (p.isLoading ==> p.showInput)
    && (!p.showInput ==> p.prompt == "")
  }

  /** `suggestedPrompts`. */
  function SuggestedPrompts(): (s: seq<string>)
    ensures |s| == 5
    ensures forall i :: 0 <= i < 5 ==> s[i] != "" && !IsWhitespace(s[i][0])
  {
    [ "Show me AI and " + "machine learning " + "tokens",
      "Find gaming and " + "metaverse projects",
      "I want DeFi tokens " + "with high yield " + "potential",
      "Show me meme coins " + "with strong " + "communities",
      "Find eco-friendly " + "and sustainable " + "crypto projects" ]
  }

  /** `handleMouseEnter`: hover now, a reveal timer started. */
  function EnterStep(p: Panel): (q: Panel)
    ensures q.isHovered && q.pendingReveals == p.pendingReveals + 1
    ensures q.showInput == p.showInput && q.prompt == p.prompt
    ensures q.isLoading == p.isLoading && q.inFlight == p.inFlight
  {
    p.(isHovered := true, pendingReveals := p.pendingReveals + 1)
  }

  /** A reveal timer fires: the input opens, whatever the hover is by then. */
  function RevealStep(p: Panel): (q: Panel)
    requires p.pendingReveals > 0
    ensures q.showInput && q.pendingReveals == p.pendingReveals - 1
    ensures q.isHovered == p.isHovered && q.prompt == p.prompt
    ensures q.isLoading == p.isLoading && q.inFlight == p.inFlight
  {
    p.(showInput := true, pendingReveals := p.pendingReveals - 1)
  }

  /** `handleMouseLeave`: the card collapses only when the prompt is empty and nothing is
      loading; the reveal timers are not cancelled. */
  function LeaveStep(p: Panel): (q: Panel)
    ensures p.prompt == "" && !p.isLoading ==> !q.isHovered && !q.showInput
    ensures p.prompt != "" || p.isLoading ==> q == p
    ensures q.prompt == p.prompt && q.pendingReveals == p.pendingReveals
    ensures q.isLoading == p.isLoading && q.inFlight == p.inFlight
  {
    if p.prompt == "" && !p.isLoading then p.(isHovered := false, showInput := false) else p
  }

  /** The input's `onChange`. Typing during a generation does not touch the prompt the
      generation runs with. */
  function TypeStep(p: Panel, text: string): (q: Panel)
    requires p.showInput
    ensures q.prompt == text && q.showInput
    ensures q.isLoading == p.isLoading && q.inFlight == p.inFlight
  {
    p.(prompt := text)
  }

  /** A click on one of the suggestion buttons: only the first three suggestions are
      offered, and a click puts the suggestion's text in the input. */
  function SuggestionStep(p: Panel, index: nat): (q: Panel)
    requires p.showInput && index < 3
    ensures q.prompt == SuggestedPrompts()[index] && q.prompt in SuggestedPrompts()[..3]
    ensures !IsBlank(q.prompt)
    ensures q.isLoading == p.isLoading && q.inFlight == p.inFlight
  {
    var s := SuggestedPrompts();
    assert s[index] == s[..3][index];
    p.(prompt := s[index])
  }

  /** The synchronous part of `handleStartTrading`: a blank prompt returns at once;
      otherwise the spinner starts and generation begins with the current prompt. Its two
      callers only call it when nothing is loading. */
  function StartStep(p: Panel): (q: Panel)
    requires !p.isLoading
    ensures IsBlank(p.prompt) ==> q == p
    ensures !IsBlank(p.prompt) ==>
      && q.isLoading && q.inFlight == Some(p.prompt)
      && q.prompt == p.prompt && q.showInput == p.showInput && q.isHovered == p.isHovered
  {
    if IsBlank(p.prompt) then p else p.(isLoading := true, inFlight := Some(p.prompt))
  }

  /** The "Start" button: disabled while the prompt is blank or a generation runs. */
  function ButtonStep(p: Panel): (q: Panel)
    requires p.showInput
    ensures IsBlank(p.prompt) || p.isLoading ==> q == p
    ensures !IsBlank(p.prompt) && !p.isLoading ==> q.isLoading && q.inFlight == Some(p.prompt)
  {
    if IsBlank(p.prompt) || p.isLoading then p else StartStep(p)
  }

  /** `handleKeyPress`: Enter starts a generation only when none is running; every other
      key, and Enter during a generation, changes nothing. */
  function KeyStep(p: Panel, key: string): (q: Panel)
    requires p.showInput
    ensures key != "Enter" || p.isLoading ==> q == p
    ensures key == "Enter" && !p.isLoading ==> q == StartStep(p)
  {
    if key == "Enter" && !p.isLoading then StartStep(p) else p
  }

  /** How the awaited `AIService.generateTokens(prompt)` ended: with a result computed
      from what the remote service and the parser returned, or with an exception. */
  datatype Generation =
    | Generated(hasKey: bool, response: Response, parse: string -> Parsed, roll: nat -> AiRoll)
    | Threw

  /** A call of `onStartTrading(tokens, prompt)`. */
  datatype Callback = StartTrading(tokens: seq<Token>, prompt: string)

  /** The state after a step, with the callback it made, if any. */
  datatype Moved = Moved(panel: Panel, call: Option<Callback>)

  /** Between one and five AI-tagged tokens, each with its AI details. */
  predicate AiTagged(tokens: seq<Token>) {
    && 1 <= |tokens| <= 5
    && forall i :: 0 <= i < |tokens| ==> tokens[i].svgIcon == NamedIcon("AI") && tokens[i].ai.Some?
  }

  /** The rest of `handleStartTrading`, once generation ends: `onStartTrading` is called
      exactly once with the captured prompt, with the generated tokens or, if generation
      threw, the pre-written ones; then the spinner stops. */
  function SettleStep(p: Panel, outcome: Generation, now: int): (r: Moved)
    requires p.inFlight.Some?
    ensures r.call.Some? && r.call.value.prompt == p.inFlight.value
    ensures AiTagged(r.call.value.tokens)
    ensures outcome.Threw? ==> r.call.value.tokens == FallbackTokens(p.inFlight.value, now)
    ensures !r.panel.isLoading && r.panel.inFlight == None
    ensures r.panel.prompt == p.prompt && r.panel.showInput == p.showInput
    ensures r.panel.isHovered == p.isHovered && r.panel.pendingReveals == p.pendingReveals
  {
    var prompt := p.inFlight.value;
    var tokens := match outcome
      case Generated(hasKey, response, parse, roll) =>
        GenerateTokens(hasKey, prompt, response, parse, now, roll)
      case Threw =>
        var fallback := FallbackTokens(prompt, now);
        assert forall i :: 0 <= i < |fallback| ==> IsPrewritten(fallback[i], prompt);
        fallback;
    Moved(p.(isLoading := false, inFlight := None), Some(StartTrading(tokens, prompt)))
  }

  /** What can happen to the card. */
  datatype Event =
    | MouseEntered
    | RevealFired
    | MouseLeft
    | Typed(text: string)
    | SuggestionClicked(index: nat)
    | ButtonPressed
    | KeyPressed(key: string)
    | Settled(outcome: Generation, now: int)

  /** Whether the event can reach the card: a timer fires only if one is pending, the
      input, the suggestions and the button exist only while the input is open, and a
      generation can end only while one is running. */
  predicate Enabled(p: Panel, e: Event) {
    match e
    case MouseEntered => true
    case RevealFired => p.pendingReveals > 0
    case MouseLeft => true
    case Typed(_) => p.showInput
    case SuggestionClicked(index) => p.showInput && index < 3
    case ButtonPressed => p.showInput
    case KeyPressed(_) => p.showInput
    case Settled(_, _) => p.inFlight.Some?
  }

  /** One event. Every event keeps the state consistent; only the end of a generation
      calls back, and it does so exactly when a running generation stops; nothing but
      its end changes a running generation. */
  function Apply(p: Panel, e: Event): (r: Moved)
    requires Enabled(p, e)
    ensures Consistent(p) ==> Consistent(r.panel)
    ensures Consistent(p) ==> (r.call.Some? <==> p.isLoading && !r.panel.isLoading)
    ensures r.call.Some? ==>
      && e.Settled? && p.inFlight.Some?
      && r.call.value.prompt == p.inFlight.value && AiTagged(r.call.value.tokens)
    ensures p.isLoading && !e.Settled? ==> r.panel.isLoading && r.panel.inFlight == p.inFlight
  {
    match e
    case MouseEntered => Moved(EnterStep(p), None)
    case RevealFired => Moved(RevealStep(p), None)
    case MouseLeft => Moved(LeaveStep(p), None)
    case Typed(text) => Moved(TypeStep(p, text), None)
    case SuggestionClicked(index) => Moved(SuggestionStep(p, index), None)
    case ButtonPressed => Moved(ButtonStep(p), None)
    case KeyPressed(key) => Moved(KeyStep(p, key), None)
    case Settled(outcome, now) => SettleStep(p, outcome, now)
  }

  /** The card after a sequence of events (an event that cannot reach it is ignored),
      with the callbacks made and the number of generations started on the way. */
  datatype Trace = Trace(panel: Panel, calls: seq<Callback>, starts: nat)

  function Run(p: Panel, events: seq<Event>): Trace
    decreases |events|
  {
    if events == [] then Trace(p, [], 0)
    else
      var first := if Enabled(p, events[0]) then Apply(p, events[0]) else Moved(p, None);
      var rest := Run(first.panel, events[1..]);
      var call := if first.call.Some? then [first.call.value] else [];
      var started := if !p.isLoading && first.panel.isLoading then 1 else 0;
      Trace(rest.panel, call + rest.calls, started + rest.starts)
  }

  /** Every generation started is answered by exactly one `onStartTrading` call, except
      the one still running; every call carries a non-blank prompt and one to five
      AI-tagged tokens. */
  lemma {:induction false} RunAnswersEveryStart(p: Panel, events: seq<Event>)
    requires Consistent(p)
    ensures var t := Run(p, events);
      && Consistent(t.panel)
      && |t.calls| + (if t.panel.isLoading then 1 else 0) == t.starts + (if p.isLoading then 1 else 0)
      && forall c :: c in t.calls ==> !IsBlank(c.prompt) && AiTagged(c.tokens)
    decreases |events|
  {
    if events != [] {
      var first := if Enabled(p, events[0]) then Apply(p, events[0]) else Moved(p, None);
      RunAnswersEveryStart(first.panel, events[1..]);
      var call := if first.call.Some? then [first.call.value] else [];
      assert forall c :: c in call ==> !IsBlank(c.prompt) && AiTagged(c.tokens);
    }
  }

  /** From the mounted state, whatever happens, the card never has two generations
      running and never calls back more often than it started generating. */
  lemma FromMountCallsNeverOutnumberStarts(events: seq<Event>)
    ensures var t := Run(Initial(), events);
      |t.calls| <= t.starts && (t.panel.isLoading <==> |t.calls| < t.starts)
  {
    RunAnswersEveryStart(Initial(), events);
  }

  /** Leaving before the 300 ms timer fires collapses the card, but the timer still opens
      the input afterwards, with the card no longer hovered. */
  lemma LeaveBeforeRevealStillReveals()
    ensures var q := RevealStep(LeaveStep(EnterStep(Initial())));
      q.showInput && !q.isHovered
  {
  }

  /** The component itself, with the callbacks it has made. */
  class PromptPanel {
    var isHovered: bool
    var showInput: bool
    var prompt: string
    var isLoading: bool
    var pendingReveals: nat
    var inFlight: Option<string>
    var calls: seq<Callback>

    function Snapshot(): Panel
      reads this
    {
      Panel(isHovered, showInput, prompt, isLoading, pendingReveals, inFlight)
    }

    predicate Valid()
      reads this
    {
      Consistent(Snapshot())
    }

    constructor ()
      ensures Valid() && Snapshot() == Initial() && calls == []
    {
      isHovered := false;
      showInput := false;
      prompt := "";
      isLoading := false;
      pendingReveals := 0;
      inFlight := None;
      calls := [];
    }

    method HandleMouseEnter()
      requires Valid()
      modifies this
      ensures Valid() && Snapshot() == EnterStep(old(Snapshot())) && calls == old(calls)
    {
      isHovered := true;
      pendingReveals := pendingReveals + 1;
    }

    /** A pending reveal timer fires. */
    method FireReveal()
      requires Valid() && pendingReveals > 0
      modifies this
      ensures Valid() && Snapshot() == RevealStep(old(Snapshot())) && calls == old(calls)
    {
      showInput := true;
      pendingReveals := pendingReveals - 1;
    }

    method HandleMouseLeave()
      requires Valid()
      modifies this
      ensures Valid() && Snapshot() == LeaveStep(old(Snapshot())) && calls == old(calls)
    {
      if prompt == "" && !isLoading {
        isHovered := false;
        showInput := false;
      }
    }

    method HandleChange(text: string)
      requires Valid() && showInput
      modifies this
      ensures Valid() && Snapshot() == TypeStep(old(Snapshot()), text) && calls == old(calls)
    {
      prompt := text;
    }

    method ClickSuggestion(index: nat)
      requires Valid() && showInput && index < 3
      modifies this
      ensures Valid() && Snapshot() == SuggestionStep(old(Snapshot()), index)
      ensures calls == old(calls)
    {
      prompt := SuggestedPrompts()[index];
    }

    /** `handleStartTrading` up to its `await`. */
    method HandleStartTrading()
      requires Valid() && showInput && !isLoading
      modifies this
      ensures Valid() && Snapshot() == StartStep(old(Snapshot())) && calls == old(calls)
    {
      if IsBlank(prompt) {
        return;
      }
      isLoading := true;
      inFlight := Some(prompt);
    }

    method PressStartButton()
      requires Valid() && showInput
      modifies this
      ensures Valid() && Snapshot() == ButtonStep(old(Snapshot())) && calls == old(calls)
    {
      if !IsBlank(prompt) && !isLoading {
        HandleStartTrading();
      }
    }

    method HandleKeyPress(key: string)
      requires Valid() && showInput
      modifies this
      ensures Valid() && Snapshot() == KeyStep(old(Snapshot()), key) && calls == old(calls)
    {
      if key == "Enter" && !isLoading {
        HandleStartTrading();
      }
    }

    /** `handleStartTrading` after its `await`: the `try`, the `catch` and the `finally`. */
    method FinishStartTrading(outcome: Generation, now: int)
      requires Valid() && inFlight.Some?
      modifies this
      ensures Valid()
      ensures var r := SettleStep(old(Snapshot()), outcome, now);
        Snapshot() == r.panel && calls == old(calls) + [r.call.value]
    {
      var captured := inFlight.value;
      var tokens;
      match outcome {
        case Generated(hasKey, response, parse, roll) =>
          tokens := GenerateTokens(hasKey, captured, response, parse, now, roll);
        case Threw =>
          tokens := FallbackTokens(captured, now);
      }
      calls := calls + [StartTrading(tokens, captured)];
      isLoading := false;
      inFlight := None;
    }
  }
}

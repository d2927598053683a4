/** The drag-release rule and the card cursor that both swipe pages share: a release
    further than 100 px from the origin decides (right buys, left skips), anything
    shorter snaps the card back; a decision moves the cursor to the next card unless the
    current card is the last one. */
module Gesture {

  /** `const threshold = 100` in both `handleDragEnd`s. */
  const Threshold: real := 100.0

  datatype Decision = SnapBack | Buy | Skip

  /** The outcome of `handleDragEnd` for a horizontal release offset `offsetX`. */
  function Classify(offsetX: real): (d: Decision)
    ensures d == Buy <==> offsetX > Threshold
    ensures d == Skip <==> offsetX < -Threshold
    ensures d == SnapBack <==> -Threshold <= offsetX <= Threshold
  {
    var magnitude := if offsetX < 0.0 then -offsetX else offsetX;
    if magnitude > Threshold then
      if offsetX > 0.0 then Buy else Skip
    else
      SnapBack
  }

  /** The card's transform: horizontal position and opacity. */
  datatype Pose = Pose(x: real, opacity: real)

  const Rest: Pose := Pose(0.0, 1.0)

  /** The off-screen pose the card is animated to before a decision runs. */
  function ExitPose(d: Decision): (p: Pose)
    requires d != SnapBack
    ensures p.opacity == 0.0
    ensures d == Buy <==> p.x > 0.0
  {
    if d == Buy then Pose(500.0, 0.0) else Pose(-500.0, 0.0)
  }

  /** `if (index < length - 1) index + 1`: the cursor step after a decision. */
  function Advance(index: nat, length: nat): (r: nat)
    ensures r == index || r == index + 1
    ensures r == index + 1 <==> index + 1 < length
    ensures index < length ==> r < length
  {
    if index < length - 1 then index + 1 else index
  }

  /** The cursor after `n` decisions starting from `index`. */
  function AdvanceTimes(index: nat, length: nat, n: nat): nat
    decreases n
  {
    if n == 0 then index else Advance(AdvanceTimes(index, length, n - 1), length)
  }

  /** From the first card, `n` decisions leave the cursor on card `min(n, length - 1)`:
      it climbs one card per decision and then stays on the last card for good. */
  lemma {:induction false} AdvanceTimesFromStart(length: nat, n: nat)
    requires length > 0
    ensures AdvanceTimes(0, length, n) == if n < length then n else length - 1
    decreases n
  {
    if n > 0 {
      AdvanceTimesFromStart(length, n - 1);
    }
  }

  /** Once on the last card, further decisions leave the cursor there. */
  lemma {:induction false} LastCardIsSticky(length: nat, n: nat)
    requires length > 0
    ensures AdvanceTimes(length - 1, length, n) == length - 1
    decreases n
  {
    if n > 0 {
      LastCardIsSticky(length, n - 1);
    }
  }
}

/** The category swipe page: a cursor over the catalog's tokens, a trust score redrawn
    whenever the cursor moves, and a notification after every decision. No wallet is
    involved on this page. */
module SwipePage {
  import opened Wrappers
  import opened Tokens
  import opened Gesture
  import opened Catalog
  import opened Toasts

  /** A draw of `Math.floor(Math.random() * 60)`. */
  type TrustRoll = r: nat | r < 60

  /** `Math.floor(Math.random() * 60) + 40`. */
  function TrustScoreOf(roll: TrustRoll): (score: nat)
    ensures 40 <= score < 100
  {
    roll + 40
  }

  function BuyToast(t: Token): ToastMessage {
    ToastMessage("success", "Token Added! \U{1F680}", DisplayName(t) + " added to your portfolio", 3000)
  }

  function SkipToast(t: Token): ToastMessage {
    ToastMessage("info", "Token Skipped \U{1F44D}", "Passed on " + DisplayName(t), 2000)
  }

  /** On the blue-chips page, buying the first card (Bitcoin) announces Dogecoin. */
  lemma BlueChipsBuyAnnouncesDogecoin(now: real, roll: nat -> Roll)
    ensures BuyToast(GetMockTokens("blue-chips", now, roll)[0]).message
            == "Dogecoin" + " added to your portfolio"
  {
    var bitcoin := GetMockTokens("blue-chips", now, roll)[0];
    assert DisplayName(bitcoin) == "Dogecoin";
  }

  /** The page's component state once its loading effect has run. */
  class SwipeSession {
    var category: string
    var tokens: seq<Token>
    var currentIndex: nat
    var trustScore: nat
    var toast: Option<ToastMessage>
    var pose: Pose

    /** There is always a current token (so neither the "No tokens found" nor the "No
        more tokens" screen is ever shown) and the trust score is a possible draw. */
    predicate Valid()
      reads this
    {
      && currentIndex < |tokens|
      && 40 <= trustScore < 100
    }

    /** Mounting: the effect loads the category's tokens and draws a trust score. */
    constructor (category: string, now: real, roll: nat -> Roll, trust: TrustRoll)
      ensures Valid()
      ensures this.category == category && tokens == GetMockTokens(category, now, roll)
      ensures currentIndex == 0 && trustScore == TrustScoreOf(trust)
      ensures toast == None && pose == Rest
    {
      this.category := category;
      tokens := GetMockTokens(category, now, roll);
      currentIndex := 0;
      trustScore := TrustScoreOf(trust);
      toast := None;
      pose := Rest;
    }

    /** `handleBuy`: announce the current token, then move on unless it is the last one;
        a move redraws the trust score. */
    method HandleBuy(trust: TrustRoll)
      requires Valid()
      modifies this
      ensures Valid()
      ensures toast == Some(BuyToast(old(tokens)[old(currentIndex)]))
      ensures currentIndex == Advance(old(currentIndex), |tokens|)
      ensures trustScore == if currentIndex != old(currentIndex) then TrustScoreOf(trust)
                            else old(trustScore)
      ensures tokens == old(tokens) && category == old(category) && pose == old(pose)
    {
      toast := Some(BuyToast(tokens[currentIndex]));
      if currentIndex < |tokens| - 1 {
        currentIndex := currentIndex + 1;
        trustScore := TrustScoreOf(trust);
      }
    }

    /** `handleSkip`: the same cursor rule with an info notification. */
    method HandleSkip(trust: TrustRoll)
      requires Valid()
      modifies this
      ensures Valid()
      ensures toast == Some(SkipToast(old(tokens)[old(currentIndex)]))
      ensures currentIndex == Advance(old(currentIndex), |tokens|)
      ensures trustScore == if currentIndex != old(currentIndex) then TrustScoreOf(trust)
                            else old(trustScore)
      ensures tokens == old(tokens) && category == old(category) && pose == old(pose)
    {
      toast := Some(SkipToast(tokens[currentIndex]));
      if currentIndex < |tokens| - 1 {
        currentIndex := currentIndex + 1;
        trustScore := TrustScoreOf(trust);
      }
    }

    /** `handleDragEnd`: a release past the threshold animates the card off screen, runs
        the decision and puts the card back at rest; a shorter one only snaps back. */
    method HandleDragEnd(offsetX: real, trust: TrustRoll) returns (d: Decision)
      requires Valid()
      modifies this
      ensures Valid()
      ensures d == Classify(offsetX)
      ensures pose == Rest
      ensures d == SnapBack ==>
        toast == old(toast) && currentIndex == old(currentIndex) && trustScore == old(trustScore)
      ensures d == Buy ==> toast == Some(BuyToast(old(tokens)[old(currentIndex)]))
      ensures d == Skip ==> toast == Some(SkipToast(old(tokens)[old(currentIndex)]))
      ensures d != SnapBack ==> currentIndex == Advance(old(currentIndex), |tokens|)
      ensures d != SnapBack ==>
        trustScore == if currentIndex != old(currentIndex) then TrustScoreOf(trust)
                      else old(trustScore)
      ensures tokens == old(tokens) && category == old(category)
    {
      d := Classify(offsetX);
      if d == SnapBack {
        pose := Rest;
      } else {
        pose := ExitPose(d);
        if d == Buy {
          HandleBuy(trust);
        } else {
          HandleSkip(trust);
        }
        pose := Rest;
      }
    }

    /** The header title. */
    function Title(): (title: string)
      reads this
      ensures title == CategoryTitle(category)
      ensures title == "Tokens" <==> !IsKnownCategory(category)
    {
      CategoryTitle(category)
    }
  }
}

/**
 * `StarRateView`: five star buttons backed by a boolean slot per star. A tap
 * rewrites the slots so that they always read as a rating filled from the left.
 */
module StarRate {

  /** The view has five buttons, tagged 0 to 4. */
  const SlotCount: nat := 5

  /** `starState.filter { $0 == true }.count`. */
  function FilledCount(s: seq<bool>): (n: nat)
    ensures n <= |s|
  {
    if s == [] then 0 else (if s[0] then 1 else 0) + FilledCount(s[1..])
  }

  /** The slots of a rating of `n` stars: the first `n` filled, the rest empty. */
  function Stars(n: nat): (s: seq<bool>)
    ensures |s| == SlotCount
  {
    seq(SlotCount, i => i < n)
  }

  /** The filled slots form a prefix: no filled slot follows an empty one. */
  predicate IsFilledPrefix(s: seq<bool>)
  {
    forall i, j :: 0 <= i < j < |s| && s[j] ==> s[i]
  }

  /** Whether a tap on slot `k` of `s` clears that slot: it is the last filled one. */
  predicate ClearsTappedSlot(s: seq<bool>, k: nat)
    requires k < |s|
  {
    s[k] && FilledCount(s) == k + 1
  }

  /**
   * The slots after a tap on slot `k`: every slot before `k` filled, every
   * slot after `k` empty, and slot `k` filled unless the tap clears it.
   */
  function Tapped(s: seq<bool>, k: nat): (r: seq<bool>)
    requires |s| == SlotCount && k < SlotCount
    ensures |r| == SlotCount
  {
    seq(SlotCount, i requires 0 <= i < SlotCount => i < k || (i == k && !ClearsTappedSlot(s, k)))
  }

  /** A sequence whose slot `i` is filled exactly when `i < n` has `min(n, |s|)` filled slots. */
  lemma {:induction false} FilledCountOfShape(s: seq<bool>, n: int)
    requires forall i :: 0 <= i < |s| ==> s[i] == (i < n)
    ensures FilledCount(s) == if n <= 0 then 0 else if n >= |s| then |s| else n
  {
    if s != [] {
      forall i | 0 <= i < |s[1..]|
        ensures s[1..][i] == (i < n - 1)
      {
        assert s[1..][i] == s[i + 1];
      }
      FilledCountOfShape(s[1..], n - 1);
    }
  }

  /** The rating of `Stars(n)` is `n`. */
  lemma FilledCountOfStars(n: nat)
    requires n <= SlotCount
    ensures FilledCount(Stars(n)) == n
    ensures IsFilledPrefix(Stars(n))
  {
    FilledCountOfShape(Stars(n), n);
  }

  /** A tap fills every slot before `k` and empties every slot after it. */
  lemma TapFillsLeftClearsRight(s: seq<bool>, k: nat)
    requires |s| == SlotCount && k < SlotCount
    ensures forall i :: 0 <= i < k ==> Tapped(s, k)[i]
    ensures forall i :: k < i < SlotCount ==> !Tapped(s, k)[i]
  {
  }

  /** Tapping an empty slot `k` leaves exactly the slots `0..k` filled. */
  lemma TapEmptySlot(s: seq<bool>, k: nat)
    requires |s| == SlotCount && k < SlotCount && !s[k]
    ensures Tapped(s, k) == Stars(k + 1)
    ensures FilledCount(Tapped(s, k)) == k + 1
  {
    FilledCountOfStars(k + 1);
  }

  /** Tapping the last filled slot `k` (exactly `k + 1` filled) clears it: `k` stars remain. */
  lemma TapLastFilledSlot(s: seq<bool>, k: nat)
    requires |s| == SlotCount && k < SlotCount && s[k] && FilledCount(s) == k + 1
    ensures Tapped(s, k) == Stars(k)
    ensures FilledCount(Tapped(s, k)) == k
  {
    FilledCountOfStars(k);
  }

  /** Tapping a filled slot `k` when the count is not `k + 1` keeps it: slots `0..k` filled. */
  lemma TapOtherFilledSlot(s: seq<bool>, k: nat)
    requires |s| == SlotCount && k < SlotCount && s[k] && FilledCount(s) != k + 1
    ensures Tapped(s, k) == Stars(k + 1)
    ensures FilledCount(Tapped(s, k)) == k + 1
  {
    FilledCountOfStars(k + 1);
  }

  /** Whatever the slots were, after a tap they are a filled prefix of length `k` or `k + 1`. */
  lemma TapGivesFilledPrefix(s: seq<bool>, k: nat)
    requires |s| == SlotCount && k < SlotCount
    ensures IsFilledPrefix(Tapped(s, k))
    ensures FilledCount(Tapped(s, k)) == if ClearsTappedSlot(s, k) then k else k + 1
  {
    if ClearsTappedSlot(s, k) {
      TapLastFilledSlot(s, k);
      FilledCountOfStars(k);
    } else if !s[k] {
      TapEmptySlot(s, k);
      FilledCountOfStars(k + 1);
    } else {
      TapOtherFilledSlot(s, k);
      FilledCountOfStars(k + 1);
    }
  }

  /**
   * Read as a rating: from `n` stars, a tap on slot `k` gives `k` stars when
   * `n == k + 1` (the tapped star is switched off) and `k + 1` stars otherwise.
   */
  lemma TapOnRating(n: nat, k: nat)
    requires n <= SlotCount && k < SlotCount
    ensures Tapped(Stars(n), k) == Stars(if n == k + 1 then k else k + 1)
  {
    FilledCountOfStars(n);
    if n == k + 1 {
      TapLastFilledSlot(Stars(n), k);
    } else if k >= n {
      TapEmptySlot(Stars(n), k);
    } else {
      TapOtherFilledSlot(Stars(n), k);
    }
  }

  /** From no stars, tap 2 twice, and from three stars tap 4. */
  lemma TapExamples()
    ensures Tapped(Stars(0), 2) == [true, true, true, false, false]
    ensures Tapped(Tapped(Stars(0), 2), 2) == [true, true, false, false, false]
    ensures Tapped([true, true, true, false, false], 4) == [true, true, true, true, true]
  {
    TapOnRating(0, 2);
    TapOnRating(3, 2);
    TapOnRating(3, 4);
    assert Stars(3) == [true, true, true, false, false];
    assert Stars(2) == [true, true, false, false, false];
    assert Stars(5) == [true, true, true, true, true];
  }

  class StarRateView {
    /** `starState`: one slot per star button. */
    var starState: array<bool>
    /** Every value passed to the delegate's `updateViewModelValue(starState:)`, in order. */
    var delegateLog: seq<seq<bool>>

    ghost predicate Valid()
      reads this
    {
      starState.Length == SlotCount
    }

    /** Starts with five empty slots and nothing sent to the delegate. */
    constructor ()
      ensures Valid() && fresh(starState)
      ensures starState[..] == Stars(0) && delegateLog == []
    {
      starState := new bool[SlotCount](_ => false);
      delegateLog := [];
      new;
      assert starState[..] == Stars(0);
    }

    /**
     * `tapStar(_:)` for the button tagged `end`: rewrites the slots as
     * `Tapped` says and hands the new slots to the delegate.
     */
    method TapStar(end: nat)
      requires Valid() && end < SlotCount
      modifies this`delegateLog, starState
      ensures Valid() && starState == old(starState)
      ensures starState[..] == Tapped(old(starState[..]), end)
      ensures delegateLog == old(delegateLog) + [starState[..]]
    {
      ghost var before := starState[..];
      var filledCount := FilledCount(starState[..]);

      if starState[end] == false {
        starState[end] := true;
      } else if starState[end] && filledCount == end + 1 {
        starState[end] := !starState[end];
      }
      assert starState[end] == Tapped(before, end)[end];

      for i := end + 1 to SlotCount
        invariant starState[end] == Tapped(before, end)[end]
        invariant forall j :: end < j < i ==> !starState[j]
        invariant forall j :: 0 <= j < end ==> starState[j] == before[j]
        invariant delegateLog == old(delegateLog)
      {
        starState[i] := false;
      }

      for i := 0 to end
        invariant starState[end] == Tapped(before, end)[end]
        invariant forall j :: end < j < SlotCount ==> !starState[j]
        invariant forall j :: 0 <= j < i ==> starState[j]
        invariant delegateLog == old(delegateLog)
      {
        starState[i] := true;
      }

      assert starState[..] == Tapped(before, end);
      delegateLog := delegateLog + [starState[..]];
    }
  }
}

/** Hand valuation: every ace starts at 11 and is brought down to 1, one
    ace at a time, only while the hand would otherwise bust. */
module Hands {
  import opened Cards

  /** Sum of the card values with every ace counted as 11. */
  function RawSum(hand: seq<Rank>): (s: int)
    ensures 2 * |hand| <= s <= 11 * |hand|
  {
    if hand == [] then 0 else RawSum(hand[..|hand| - 1]) + CardValue(hand[|hand| - 1])
  }

  /** Number of aces in the hand. */
  function AceCount(hand: seq<Rank>): (n: nat)
    ensures n == multiset(hand)[Ace]
  {
    if hand == [] then 0
    else
      assert hand == hand[..|hand| - 1] + [hand[|hand| - 1]];
      AceCount(hand[..|hand| - 1]) + (if hand[|hand| - 1] == Ace then 1 else 0)
  }

  /** The total of a hand whose raw sum is `raw` once `j` aces count as 1. */
  function Reduced(raw: int, j: nat): int {
    raw - 10 * j
  }

  /** How many aces have to count as 1: none when the raw sum does not
      bust, otherwise the fewest that bring the total to 21 or below, but
      never more than there are aces. */
  function ReductionCount(raw: int, aces: nat): (k: nat)
    ensures k <= aces
    ensures raw <= 21 ==> k == 0
    ensures Reduced(raw, k) > 21 ==> k == aces
    // every ace brought down was needed: the total before it was over 21
    ensures k > 0 ==> Reduced(raw, k - 1) > 21
  {
    if raw <= 21 then 0
    else if aces <= (raw - 12) / 10 then aces
    else (raw - 12) / 10
  }

  /** The reduction count is the only one that stops at the first total
      not over 21, or at the last ace, having brought each ace down only
      while the total was over 21. */
  lemma ReductionCountUnique(raw: int, aces: nat, k: nat)
    requires k <= aces
    requires k > 0 ==> Reduced(raw, k - 1) > 21
    requires Reduced(raw, k) <= 21 || k == aces
    ensures k == ReductionCount(raw, aces)
  {
    var q := (raw - 12) / 10;
    if raw > 21 {
      assert 10 * q <= raw - 12 < 10 * q + 10;
    }
  }

  /** The value of a hand as the trainer reports it. */
  function HandTotal(hand: seq<Rank>): int {
    Reduced(RawSum(hand), ReductionCount(RawSum(hand), AceCount(hand)))
  }

  /** The total is the best one the aces allow: the largest total not over
      21 when there is one, and the fully reduced total otherwise. */
  lemma HandTotalIsBest(hand: seq<Rank>)
    ensures forall j: nat :: j <= AceCount(hand) && Reduced(RawSum(hand), j) <= 21 ==>
              Reduced(RawSum(hand), j) <= HandTotal(hand) <= 21
    ensures HandTotal(hand) > 21 ==> HandTotal(hand) == Reduced(RawSum(hand), AceCount(hand))
  {
    var raw, n := RawSum(hand), AceCount(hand);
    var k := ReductionCount(raw, n);
    forall j: nat | j <= n && Reduced(raw, j) <= 21
      ensures Reduced(raw, j) <= Reduced(raw, k) <= 21
    {
      if k > 0 {
        assert Reduced(raw, k - 1) > 21;
        assert j >= k;
      }
    }
  }

  /** A single ace in a hand that would bust by at most ten turns hard:
      the total drops by exactly ten and no longer busts. */
  lemma SoftToHard(hand: seq<Rank>)
    requires AceCount(hand) == 1
    requires 21 < RawSum(hand) <= 31
    ensures HandTotal(hand) == RawSum(hand) - 10 <= 21
  {
  }

  lemma HandTotalExamples()
    ensures HandTotal([Ace, Ace, Nine]) == 21
    ensures HandTotal([Ace, King, Five]) == 16
    ensures HandTotal([King, King]) == 20
    ensures HandTotal([]) == 0
  {
    assert [Ace, Ace, Nine][..2] == [Ace, Ace];
    assert [Ace, Ace][..1] == [Ace];
    assert RawSum([Ace, Ace, Nine]) == 31 && AceCount([Ace, Ace, Nine]) == 2;
    ReductionCountUnique(31, 2, 1);
    assert [Ace, King, Five][..2] == [Ace, King];
    assert [Ace, King][..1] == [Ace];
    assert RawSum([Ace, King, Five]) == 26 && AceCount([Ace, King, Five]) == 1;
    ReductionCountUnique(26, 1, 1);
    assert [King, King][..1] == [King];
    assert RawSum([King, King]) == 20;
  }

  /** Computes the hand's value as the trainer does: count the aces, add
      up the cards with aces as 11, then take ten off per ace while the
      total busts and an ace is left to reduce. */
  method HandValue(hand: seq<Rank>) returns (total: int)
    ensures total == HandTotal(hand)
  {
    var aces := 0;
    var i := 0;
    while i < |hand|
      invariant 0 <= i <= |hand|
      invariant aces == AceCount(hand[..i])
    {
      assert hand[..i + 1][..i] == hand[..i];
      if hand[i] == Ace {
        aces := aces + 1;
      }
      i := i + 1;
    }
    assert hand[..|hand|] == hand;

    total := 0;
    i := 0;
    while i < |hand|
      invariant 0 <= i <= |hand|
      invariant total == RawSum(hand[..i])
    {
      assert hand[..i + 1][..i] == hand[..i];
      total := total + CardValue(hand[i]);
      i := i + 1;
    }

    ghost var raw, allAces := total, aces;
    while total > 21 && aces > 0
      invariant 0 <= aces <= allAces
      invariant total == Reduced(raw, allAces - aces)
      invariant aces < allAces ==> Reduced(raw, allAces - aces - 1) > 21
    {
      total := total - 10;
      aces := aces - 1;
    }
    ReductionCountUnique(raw, allAces, allAces - aces);
  }
}

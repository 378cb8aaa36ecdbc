/** Hi-Lo card counting and the bet sizer that follows the count. */
module Counting {
  import opened Cards

  /** The running count over a sequence of cards: the sum of their Hi-Lo tags. */
  function RunningCount(cards: seq<Rank>): (n: int)
    ensures -|cards| <= n <= |cards|
  {
    if cards == [] then 0 else RunningCount(cards[..|cards| - 1]) + HiLo(cards[|cards| - 1])
  }

  /** The count of cards seen in two stretches is the sum of the two counts,
      so it does not matter which hand or which round a card went to. */
  lemma {:induction false} RunningCountAppend(a: seq<Rank>, b: seq<Rank>)
    ensures RunningCount(a + b) == RunningCount(a) + RunningCount(b)
    decreases |b|
  {
    if b == [] {
      assert a + b == a;
    } else {
      var b' := b[..|b| - 1];
      assert (a + b)[..|a + b| - 1] == a + b';
      assert (a + b)[|a + b| - 1] == b[|b| - 1];
      RunningCountAppend(a, b');
    }
  }

  /** Cards that all carry the same tag `t` count to `t` per card. */
  lemma {:induction false} UniformCount(cards: seq<Rank>, t: int)
    requires forall i :: 0 <= i < |cards| ==> HiLo(cards[i]) == t
    ensures RunningCount(cards) == t * |cards|
    decreases |cards|
  {
    if cards != [] {
      UniformCount(cards[..|cards| - 1], t);
    }
  }

  /** Hi-Lo is a balanced count: one card of every rank counts to zero. */
  lemma BalancedCount()
    ensures RunningCount(AllRanks) == 0
  {
    var s := AllRanks;
    assert s == s[..5] + s[5..8] + s[8..];
    RunningCountAppend(s[..5] + s[5..8], s[8..]);
    RunningCountAppend(s[..5], s[5..8]);
    UniformCount(s[..5], 1);
    UniformCount(s[5..8], 0);
    UniformCount(s[8..], -1);
  }

  /** The number of decks the true count assumes are left in the shoe. */
  const AssumedDecks: int := 6

  /** The true count: the running count per assumed remaining deck, exactly. */
  function TrueCount(count: int): (t: real)
    ensures t * AssumedDecks as real == count as real
    ensures t >= 0.0 <==> count >= 0
  {
    count as real / AssumedDecks as real
  }

  lemma CountExample()
    ensures RunningCount([Two, Seven, King, Ace]) == -1
    ensures TrueCount(-1) == -1.0 / 6.0
  {
    assert [Two, Seven, King, Ace][..3] == [Two, Seven, King];
    assert [Two, Seven, King][..2] == [Two, Seven];
    assert [Two, Seven][..1] == [Two];
  }

  /** The bets the sizer can suggest, in units. */
  const BetSizes: set<int> := {10, 20, 50, 100}

  /** The suggested bet: 100 from a true count of 5, 50 from 3, 20 from 1,
      otherwise 10. On a whole running count these are the thresholds 30,
      18 and 6. */
  function SuggestBet(count: int): (b: int)
    ensures b in BetSizes
    ensures b == 100 <==> count >= 30
    ensures b == 50 <==> 18 <= count < 30
    ensures b == 20 <==> 6 <= count < 18
    ensures b == 10 <==> count < 6
  {
    var trueCount := TrueCount(count);
    if trueCount >= 5.0 then 100
    else if trueCount >= 3.0 then 50
    else if trueCount >= 1.0 then 20
    else 10
  }

  /** A higher count never suggests a smaller bet. */
  lemma SuggestBetMonotone(c1: int, c2: int)
    requires c1 <= c2
    ensures SuggestBet(c1) <= SuggestBet(c2)
  {
  }
}

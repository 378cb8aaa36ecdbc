/** The basic-strategy advisor: an ordered table of rules in which the
    first rule that applies gives the advice. Pair splits come first, then
    doubles, then the hit/stand table. */
module Strategy {
  import opened Cards
  import opened Hands

  /** The four moves the advisor can recommend. */
  datatype Move = Hit | Stand | Double | Split

  /** Each piece of advice is a move together with the reason shown for it. */
  datatype Advice =
    | SplitAcesEights
    | SplitDealerWeak
    | SplitAdvantageous
    | SplitOptimal
    | DoubleMaximumPower
    | DoubleDealerWeaker
    | DoubleDealerVeryWeak
    | HitTooWeak
    | StandDealerLikelyBust
    | StandStrongTotal
    | StandDealerWeak
    | HitDealerStrong

  function MoveOf(a: Advice): Move {
    match a
    case SplitAcesEights | SplitDealerWeak | SplitAdvantageous | SplitOptimal => Split
    case DoubleMaximumPower | DoubleDealerWeaker | DoubleDealerVeryWeak => Double
    case HitTooWeak | HitDealerStrong => Hit
    case StandDealerLikelyBust | StandStrongTotal | StandDealerWeak => Stand
  }

  function MoveWord(m: Move): string {
    match m
    case Hit => "Hit"
    case Stand => "Stand"
    case Double => "Double"
    case Split => "Split"
  }

  /** The advice as the trainer displays it: the move's name comes first. */
  function Text(a: Advice): (s: string)
    ensures MoveWord(MoveOf(a)) <= s
  {
    match a
    case SplitAcesEights => "Split (always split Aces and 8s)"
    case SplitDealerWeak => "Split (dealer weak)"
    case SplitAdvantageous => "Split (advantageous split)"
    case SplitOptimal => "Split (optimal)"
    case DoubleMaximumPower => "Double (maximum power)"
    case DoubleDealerWeaker => "Double (dealer weaker)"
    case DoubleDealerVeryWeak => "Double (dealer very weak)"
    case HitTooWeak => "Hit (too weak to stand)"
    case StandDealerLikelyBust => "Stand (dealer likely to bust)"
    case StandStrongTotal => "Stand (strong total)"
    case StandDealerWeak => "Stand (dealer weak)"
    case HitDealerStrong => "Hit (dealer strong)"
  }

  /** Different advice is displayed differently. */
  lemma TextInjective(a: Advice, b: Advice)
    requires a != b
    ensures Text(a) != Text(b)
  {
  }

  /** Two cards of the same rank. */
  predicate IsPair(player: seq<Rank>) {
    |player| == 2 && player[0] == player[1]
  }

  /** The pair-splitting rules for a pair of `rank` against a dealer upcard
      worth `upVal`; None when none of them applies. */
  function PairRule(rank: Rank, upVal: int): (r: Option<Advice>)
    ensures r.Some? ==> MoveOf(r.value) == Split
    ensures rank == Ace || rank == Eight ==> r == Some(SplitAcesEights)
    // tens, fours and fives are never split
    ensures TenValued(rank) || rank == Four || rank == Five ==> r == None
  {
    if rank in {Ace, Eight} then Some(SplitAcesEights)
    else if rank in {Two, Three, Seven} && upVal <= 7 then Some(SplitDealerWeak)
    else if rank == Six && upVal <= 6 then Some(SplitAdvantageous)
    else if rank == Nine && upVal !in {7, 10, 11} then Some(SplitOptimal)
    else None
  }

  /** The advice for `player` against the dealer's `upcard`. */
  function GetAction(player: seq<Rank>, upcard: Rank, canDouble: bool, canSplit: bool): (a: Advice)
    // splitting Aces and 8s wins over every other rule, whatever the upcard, and only they split always
    ensures a == SplitAcesEights <==> canSplit && IsPair(player) && (player[0] == Ace || player[0] == Eight)
    ensures MoveOf(a) == Split ==> canSplit && IsPair(player)
    ensures MoveOf(a) == Double ==> canDouble && 9 <= HandTotal(player) <= 11
    ensures MoveOf(a) != Split && canDouble && HandTotal(player) == 11 ==> a == DoubleMaximumPower
    ensures MoveOf(a) != Split && HandTotal(player) >= 17 ==> a == StandStrongTotal
    // never stands below 12, never hits from 17 up
    ensures MoveOf(a) == Stand ==> HandTotal(player) >= 12
    ensures MoveOf(a) == Hit ==> HandTotal(player) <= 16
  {
    var total := HandTotal(player);
    // the upcard counts as it would in a hand: tens and faces 10, an ace 11
    var upVal := CardValue(upcard);
    var split := if IsPair(player) && canSplit then PairRule(player[0], upVal) else None;
    if split.Some? then split.value
    else if total == 11 && canDouble then DoubleMaximumPower
    else if total == 10 && upVal <= 9 && canDouble then DoubleDealerWeaker
    else if total == 9 && upVal in {3, 4, 5, 6} && canDouble then DoubleDealerVeryWeak
    else if total <= 11 then HitTooWeak
    else if total == 12 && upVal in {4, 5, 6} then StandDealerLikelyBust
    else if total >= 17 then StandStrongTotal
    else if 13 <= total <= 16 && upVal <= 6 then StandDealerWeak
    else HitDealerStrong
  }

  /** None of the pair-splitting rules applies to this hand and upcard. */
  predicate NoSplitFires(player: seq<Rank>, upcard: Rank, canSplit: bool) {
    !(canSplit && IsPair(player) && PairRule(player[0], CardValue(upcard)).Some?)
  }

  /** Once no split rule applies, exactly when each of the other rules
      gives the advice, in terms of the total and the upcard's value. */
  lemma NonSplitRules(player: seq<Rank>, upcard: Rank, canDouble: bool, canSplit: bool)
    requires NoSplitFires(player, upcard, canSplit)
    ensures var a, t, up := GetAction(player, upcard, canDouble, canSplit), HandTotal(player), CardValue(upcard);
            && (a == DoubleMaximumPower <==> canDouble && t == 11)
            && (a == DoubleDealerWeaker <==> canDouble && t == 10 && up <= 9)
            && (a == DoubleDealerVeryWeak <==> canDouble && t == 9 && 3 <= up <= 6)
            && (a == HitTooWeak <==>
                  t <= 11 && !(canDouble && (t == 11 || (t == 10 && up <= 9) || (t == 9 && 3 <= up <= 6))))
            && (a == StandDealerLikelyBust <==> t == 12 && 4 <= up <= 6)
            && (a == StandStrongTotal <==> t >= 17)
            && (a == StandDealerWeak <==> 13 <= t <= 16 && up <= 6)
            && (a == HitDealerStrong <==> (t == 12 && !(4 <= up <= 6)) || (13 <= t <= 16 && up >= 7))
  {
  }

  /** Exactly when each split is advised. */
  lemma SplitRules(player: seq<Rank>, upcard: Rank, canDouble: bool, canSplit: bool)
    requires canSplit && IsPair(player)
    ensures var a := GetAction(player, upcard, canDouble, canSplit);
            var up := CardValue(upcard);
            && (a == SplitDealerWeak <==> player[0] in {Two, Three, Seven} && up <= 7)
            && (a == SplitAdvantageous <==> player[0] == Six && up <= 6)
            && (a == SplitOptimal <==> player[0] == Nine && up != 7 && up < 10)
  {
  }

  /** Outside the split rules the advice depends only on the hand's total
      and on the upcard's value: a ten and a king showing are the same. */
  lemma AdviceDependsOnTotals(p1: seq<Rank>, p2: seq<Rank>, u1: Rank, u2: Rank, canDouble: bool, canSplit: bool)
    requires NoSplitFires(p1, u1, canSplit) && NoSplitFires(p2, u2, canSplit)
    requires HandTotal(p1) == HandTotal(p2) && CardValue(u1) == CardValue(u2)
    ensures GetAction(p1, u1, canDouble, canSplit) == GetAction(p2, u2, canDouble, canSplit)
  {
  }

  lemma ExampleEights()
    ensures GetAction([Eight, Eight], Six, true, true) == SplitAcesEights
  {
    assert IsPair([Eight, Eight]);
  }

  lemma ExampleAcesSplit()
    ensures GetAction([Ace, Ace], Two, true, true) == SplitAcesEights
  {
    assert IsPair([Ace, Ace]);
  }

  lemma ExampleAcesStand()
    ensures GetAction([Ace, Ace], Four, true, false) == StandDealerLikelyBust
  {
    AcePairTotal();
  }

  lemma ExampleFiveSix()
    ensures GetAction([Five, Six], Six, true, false) == DoubleMaximumPower
  {
    FiveSixTotal();
  }

  lemma AcePairTotal()
    ensures HandTotal([Ace, Ace]) == 12
  {
    assert [Ace, Ace][..1] == [Ace];
    assert RawSum([Ace, Ace]) == 22 && AceCount([Ace, Ace]) == 2;
    ReductionCountUnique(22, 2, 1);
  }

  lemma FiveSixTotal()
    ensures HandTotal([Five, Six]) == 11
  {
    assert [Five, Six][..1] == [Five];
    assert RawSum([Five, Six]) == 11 && AceCount([Five, Six]) == 0;
  }
}

/** Card ranks as the trainer sees them: their labels, their blackjack
    values and their Hi-Lo counting tags. Suits play no part. */
module Cards {

  datatype Option<T> = None | Some(value: T)

  /** The thirteen ranks a card can have. */
  datatype Rank = Two | Three | Four | Five | Six | Seven | Eight | Nine | Ten | Jack | Queen | King | Ace

  /** The card buttons offered for each hand, in display order. */
  const AllRanks: seq<Rank> := [Two, Three, Four, Five, Six, Seven, Eight, Nine, Ten, Jack, Queen, King, Ace]

  lemma AllRanksListsEveryRankOnce()
    ensures |AllRanks| == 13
    ensures forall c: Rank :: c in AllRanks
    ensures forall i, j :: 0 <= i < j < |AllRanks| ==> AllRanks[i] != AllRanks[j]
  {
    forall c: Rank ensures c in AllRanks {
      match c
      case Two => assert AllRanks[0] == c;
      case Three => assert AllRanks[1] == c;
      case Four => assert AllRanks[2] == c;
      case Five => assert AllRanks[3] == c;
      case Six => assert AllRanks[4] == c;
      case Seven => assert AllRanks[5] == c;
      case Eight => assert AllRanks[6] == c;
      case Nine => assert AllRanks[7] == c;
      case Ten => assert AllRanks[8] == c;
      case Jack => assert AllRanks[9] == c;
      case Queen => assert AllRanks[10] == c;
      case King => assert AllRanks[11] == c;
      case Ace => assert AllRanks[12] == c;
    }
  }

  /** The number cards, 2 to 10. */
  predicate IsNumberCard(c: Rank) {
    c !in {Jack, Queen, King, Ace}
  }

  /** The text a card carries in the trainer ("2" .. "10", "J", "Q", "K", "A"). */
  function Label(c: Rank): (s: string)
    ensures 1 <= |s| <= 2
    ensures |s| == 2 <==> c == Ten
    // a label starts with a digit exactly on a number card
    ensures '0' <= s[0] <= '9' <==> IsNumberCard(c)
  {
    match c
    case Two => "2"
    case Three => "3"
    case Four => "4"
    case Five => "5"
    case Six => "6"
    case Seven => "7"
    case Eight => "8"
    case Nine => "9"
    case Ten => "10"
    case Jack => "J"
    case Queen => "Q"
    case King => "K"
    case Ace => "A"
  }

  /** Recognises a card label; any other text is not a card. */
  function FromLabel(s: string): (r: Option<Rank>)
    ensures r.Some? ==> Label(r.value) == s
    ensures r.None? ==> forall c: Rank :: Label(c) != s
  {
    if s == "2" then Some(Two)
    else if s == "3" then Some(Three)
    else if s == "4" then Some(Four)
    else if s == "5" then Some(Five)
    else if s == "6" then Some(Six)
    else if s == "7" then Some(Seven)
    else if s == "8" then Some(Eight)
    else if s == "9" then Some(Nine)
    else if s == "10" then Some(Ten)
    else if s == "J" then Some(Jack)
    else if s == "Q" then Some(Queen)
    else if s == "K" then Some(King)
    else if s == "A" then Some(Ace)
    else None
  }

  /** Every label is read back as the rank it came from. */
  lemma LabelRoundTrip(c: Rank)
    ensures FromLabel(Label(c)) == Some(c)
  {
  }

  /** The ranks worth ten points. */
  predicate TenValued(c: Rank) {
    c == Ten || c == Jack || c == Queen || c == King
  }

  /** Blackjack value of a card, counting an ace as 11. */
  function CardValue(c: Rank): (v: int)
    ensures 2 <= v <= 11
    ensures v == 11 <==> c == Ace
    ensures v == 10 <==> TenValued(c)
    // a number card is worth the digit written on it
    ensures v <= 9 ==> Label(c) == [('0' as int + v) as char]
  {
    match c
    case Two => 2
    case Three => 3
    case Four => 4
    case Five => 5
    case Six => 6
    case Seven => 7
    case Eight => 8
    case Nine => 9
    case Ace => 11
    case _ => 10
  }

  /** Hi-Lo tag: low cards count up, high cards count down. */
  function HiLo(c: Rank): (t: int)
    ensures -1 <= t <= 1
    ensures t == 1 <==> CardValue(c) <= 6
    ensures t == 0 <==> 7 <= CardValue(c) <= 9
    ensures t == -1 <==> CardValue(c) >= 10
  {
    if c in {Two, Three, Four, Five, Six} then 1
    else if c in {Seven, Eight, Nine} then 0
    else -1
  }
}

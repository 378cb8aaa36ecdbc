/** The trainer's session: the two hands being entered, the running count,
    the bankroll, the current bet and the history of resolved rounds. */
module Trainer {
  import opened Cards
  import opened Hands
  import opened Strategy
  import opened Counting

  /** Which hand an entered card joins. */
  datatype Side = PlayerSide | DealerSide

  /** How a round ended. */
  datatype Outcome = Win | Loss | PlayerBust | Push

  /** The result as the history shows it; both kinds of loss read as a loss. */
  function OutcomeText(o: Outcome): (s: string)
    ensures "Loss" <= s <==> o == Loss || o == PlayerBust
  {
    match o
    case Win => assert "Win"[0] != 'L'; "Win"
    case Loss => "Loss"
    case PlayerBust => assert "Loss (player bust)"[..4] == "Loss"; "Loss (player bust)"
    case Push => assert "Push"[0] != 'L'; "Push"
  }

  /** Different outcomes are logged with different text. */
  lemma OutcomeTextInjective(o1: Outcome, o2: Outcome)
    requires o1 != o2
    ensures OutcomeText(o1) != OutcomeText(o2)
  {
  }

  /** One line of the history: copies of both hands, the outcome, and the
      bet and running count at the time the round was resolved. */
  datatype Record = Record(player: seq<Rank>, dealer: seq<Rank>, result: Outcome, bet: int, count: int)

  const InitialBankroll: int := 1000
  const InitialBet: int := 10

  /** The outcome for a player total `p` against a dealer total `d`. A bust
      player loses before the dealer's hand is looked at. */
  function Settle(p: int, d: int): (o: Outcome)
    ensures o == PlayerBust <==> p > 21
    ensures o == Win <==> p <= 21 && (d > 21 || p > d)
    ensures o == Loss <==> p <= 21 && d <= 21 && p < d
    ensures o == Push <==> p <= 21 && d <= 21 && p == d
  {
    if p > 21 then PlayerBust
    else if d > 21 || p > d then Win
    else if p < d then Loss
    else Push
  }

  /** What an outcome does to the bankroll at stake `bet`. */
  function Payout(o: Outcome, bet: int): (delta: int)
    ensures delta == bet || delta == -bet || delta == 0
    // at a positive stake, only a win gains and only a loss of either kind costs
    ensures bet > 0 ==> (delta > 0 <==> o == Win) && (delta < 0 <==> o == Loss || o == PlayerBust)
  {
    match o
    case Win => bet
    case Loss | PlayerBust => -bet
    case Push => 0
  }

  /** A round with player total `p` and dealer total `d` pays the stake exactly when
      the player neither busts nor is beaten, and costs it exactly when the
      player busts or is beaten; only equal totals leave the bankroll as it was. */
  lemma PayoutOfRound(p: int, d: int, bet: int)
    requires bet > 0
    ensures var delta := Payout(Settle(p, d), bet);
            && (delta == bet <==> p <= 21 && (d > 21 || p > d))
            && (delta == -bet <==> p > 21 || (d <= 21 && p < d))
            && (delta == 0 <==> p <= 21 && d <= 21 && p == d)
  {
  }

  lemma SettleExamples()
    ensures Settle(20, 22) == Win && Payout(Settle(20, 22), 50) == 50
    ensures forall d :: Settle(22, d) == PlayerBust
  {
  }

  /** The net effect of a history of rounds on the bankroll. */
  function Net(log: seq<Record>): int {
    if log == [] then 0 else Net(log[..|log| - 1]) + Payout(log[|log| - 1].result, log[|log| - 1].bet)
  }

  /** A record is consistent when its outcome is the one its hands settle to. */
  predicate Settled(r: Record) {
    r.result == Settle(HandTotal(r.player), HandTotal(r.dealer)) && r.bet in BetSizes
  }

  /** Appending a settled round keeps the history settled and moves the net
      by that round's payout. */
  lemma AppendRecord(log: seq<Record>, entry: Record)
    requires forall i :: 0 <= i < |log| ==> Settled(log[i])
    requires Settled(entry)
    ensures forall i :: 0 <= i < |log + [entry]| ==> Settled((log + [entry])[i])
    ensures Net(log + [entry]) == Net(log) + Payout(entry.result, entry.bet)
  {
    assert (log + [entry])[..|log|] == log;
  }

  class Session {
    var player: seq<Rank>
    var dealer: seq<Rank>
    var count: int
    var bankroll: int
    var bet: int
    var log: seq<Record>
    /** Every card entered in the session, in order, across all rounds. */
    ghost var seen: seq<Rank>

    /** The running count is the Hi-Lo sum of every card entered; the bet is
        one the sizer can suggest; the bankroll has moved from its starting
        value by exactly the payouts of the recorded rounds, and each record
        holds the outcome its hands settle to. */
    ghost predicate Valid()
      reads this
    {
      && count == RunningCount(seen)
      && bet in BetSizes
      && bankroll == InitialBankroll + Net(log)
      && forall i :: 0 <= i < |log| ==> Settled(log[i])
    }

    constructor ()
      ensures Valid()
      ensures player == [] && dealer == [] && log == [] && seen == []
      ensures count == 0 && bankroll == InitialBankroll && bet == InitialBet
    {
      player, dealer := [], [];
      count, bankroll, bet := 0, InitialBankroll, InitialBet;
      log, seen := [], [];
    }

    /** Enters one card: the count moves by the card's Hi-Lo tag and the
        card joins the chosen hand; the other hand is untouched. */
    method HandleCardInput(card: Rank, who: Side)
      requires Valid()
      modifies this
      ensures Valid()
      ensures count == old(count) + HiLo(card)
      ensures seen == old(seen) + [card]
      ensures who == PlayerSide ==> player == old(player) + [card] && dealer == old(dealer)
      ensures who == DealerSide ==> dealer == old(dealer) + [card] && player == old(player)
      ensures bankroll == old(bankroll) && bet == old(bet) && log == old(log)
    {
      RunningCountAppend(seen, [card]);
      assert RunningCount([card]) == HiLo(card) by {
        assert [card][..0] == [];
      }
      count := count + HiLo(card);
      seen := seen + [card];
      if who == PlayerSide {
        player := player + [card];
      } else {
        dealer := dealer + [card];
      }
    }

    /** Starts a new round: both hands are cleared, the count carries on, and
        the bet becomes the one the count suggests. */
    method Reset()
      requires Valid()
      modifies this
      ensures Valid()
      ensures player == [] && dealer == []
      ensures bet == SuggestBet(count)
      ensures count == old(count) && seen == old(seen)
      ensures bankroll == old(bankroll) && log == old(log)
    {
      player := [];
      dealer := [];
      bet := SuggestBet(count);
    }

    /** Settles the round on the table: the bankroll moves by the payout and
        a copy of the round is appended to the history. The hands stay as
        they are until the next reset. */
    method Resolve()
      requires Valid()
      modifies this
      ensures Valid()
      ensures |log| == |old(log)| + 1 && log[..|old(log)|] == old(log)
      ensures log[|log| - 1] == Record(player, dealer, Settle(HandTotal(player), HandTotal(dealer)), bet, count)
      ensures bankroll == old(bankroll) + Payout(log[|log| - 1].result, bet)
      ensures player == old(player) && dealer == old(dealer) && bet == old(bet)
      ensures count == old(count) && seen == old(seen)
    {
      var p := HandValue(player);
      var d := HandValue(dealer);
      var result := Push;
      if p > 21 {
        bankroll := bankroll - bet;
        result := PlayerBust;
      } else if d > 21 || p > d {
        bankroll := bankroll + bet;
        result := Win;
      } else if p < d {
        bankroll := bankroll - bet;
        result := Loss;
      }
      assert result == Settle(p, d);
      assert bankroll == old(bankroll) + Payout(result, bet);
      var entry := Record(player, dealer, result, bet, count);
      assert Settled(entry);
      AppendRecord(log, entry);
      log := log + [entry];
    }

    /** The advice on show: only once both hands hold a card, and then for
        the player's hand against the dealer's first card, with doubling and
        splitting allowed. */
    function CurrentAdvice(): (r: Option<Advice>)
      reads this
      ensures r.Some? <==> |player| > 0 && |dealer| > 0
      ensures r.Some? ==> r.value == GetAction(player, dealer[0], true, true)
      ensures r.Some? && IsPair(player) && (player[0] == Ace || player[0] == Eight) ==> r.value == SplitAcesEights
      ensures r.Some? && !IsPair(player) && HandTotal(player) >= 17 ==> r.value == StandStrongTotal
    {
      if |player| > 0 && |dealer| > 0 then Some(GetAction(player, dealer[0], true, true)) else None
    }
  }
}

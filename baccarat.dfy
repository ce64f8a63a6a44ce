/**
  Baccarat Martingale simulator: the bet-target strategies, the per-round
  bankroll transition and the simulation loop with its summary.

  The outcome of each round, drawn at random by the simulator, is supplied
  here as a sequence `outcomes` (one entry per round that may be played).
*/
module Baccarat {

  const INITIAL_BALANCE: int := 100000
  const MIN_BET: int := 1000
  /** The banker commission, 5%, as a whole percentage. */
  const BANKER_COMMISSION_PERCENT: int := 5
  const MAX_CONSECUTIVE_LOSSES: int := 3

  datatype Option<T> = None | Some(value: T)

  /** What the bettor backs in a round. */
  datatype BetTarget = Banker | Player

  /** The outcome of a round: a hand won by one side, or a tie. */
  datatype GameResult = Decided(winner: BetTarget) | Tie

  datatype StrategyId = BankerOnly | PlayerOnly | FollowWinner | Alternate | Ppbb

  /** The action tag of a round record, without its locale formatting. */
  datatype Action =
    | TieRefund
    | WonAmount(amount: int)
    | LostReset(amount: int)
    | LostDoubled(amount: int, nextBet: int)

  datatype RoundHistory = RoundHistory(
    round: int,
    bet: int,
    betTarget: BetTarget,
    result: GameResult,
    balanceBefore: int,
    balanceAfter: int,
    action: Action)

  datatype SimulationResults = SimulationResults(
    finalBalance: int,
    profit: int,
    totalRounds: int,
    wins: int,
    losses: int,
    ties: int)

  /** The bankroll state owned by one simulation run. */
  datatype Bankroll = Bankroll(
    balance: int,
    currentBet: int,
    consecutiveLosses: int,
    lastWinner: Option<BetTarget>)

  function Min(a: int, b: int): int { if a <= b then a else b }

  // ---------------------------------------------------------------------
  // Bet target selection
  // ---------------------------------------------------------------------

  /** The side a strategy backs in round `roundNum` (1-based). */
  function GetBetTarget(strategy: StrategyId, roundNum: nat, lastWinner: Option<BetTarget>): BetTarget
  {
    match strategy
    case BankerOnly => Banker
    case PlayerOnly => Player
    case FollowWinner => if lastWinner.Some? then lastWinner.value else Banker
    case Alternate => if roundNum % 2 == 0 then Player else Banker
    case Ppbb => if ((roundNum - 1) / 2) % 2 == 0 then Player else Banker
  }

  /** Only followWinner looks at the last winner: it backs it, or banker before any decided round. */
  lemma OnlyFollowWinnerUsesLastWinner(strategy: StrategyId, roundNum: nat, w1: Option<BetTarget>, w2: Option<BetTarget>)
    ensures strategy != FollowWinner ==> GetBetTarget(strategy, roundNum, w1) == GetBetTarget(strategy, roundNum, w2)
    ensures GetBetTarget(FollowWinner, roundNum, w1) == (if w1 == None then Banker else w1.value)
    ensures GetBetTarget(BankerOnly, roundNum, w1) == Banker && GetBetTarget(PlayerOnly, roundNum, w1) == Player
  {
  }

  /** alternate backs player exactly on the even rounds, so consecutive rounds differ. */
  lemma AlternateFlips(roundNum: nat, w: Option<BetTarget>)
    ensures GetBetTarget(Alternate, roundNum, w) == Player <==> roundNum % 2 == 0
    ensures GetBetTarget(Alternate, roundNum + 1, w) != GetBetTarget(Alternate, roundNum, w)
  {
  }

  /** ppbb backs player in rounds 1, 2, 5, 6, 9, 10, ... and banker in rounds 3, 4, 7, 8, ... */
  lemma PpbbBlocks(roundNum: nat, w: Option<BetTarget>)
    requires roundNum >= 1
    ensures GetBetTarget(Ppbb, roundNum, w) == Player <==> roundNum % 4 == 1 || roundNum % 4 == 2
  {
    var q := (roundNum - 1) / 4;
    var m := (roundNum - 1) % 4;
    assert roundNum - 1 == 4 * q + m;
    assert (roundNum - 1) / 2 == 2 * q + m / 2;
    assert ((roundNum - 1) / 2) % 2 == m / 2;
    assert roundNum % 4 == (m + 1) % 4;
  }

  // ---------------------------------------------------------------------
  // One round
  // ---------------------------------------------------------------------

  /** The amount won on a winning stake: less the commission when backing banker. */
  function Payout(target: BetTarget, stake: int): int
  {
    if target == Banker then stake * (100 - BANKER_COMMISSION_PERCENT) / 100 else stake
  }

  lemma PayoutBounds(target: BetTarget, stake: int)
    requires stake >= 0
    ensures 0 <= Payout(target, stake) <= stake
    ensures target == Player ==> Payout(target, stake) == stake
  {
  }

  function InitialBankroll(): Bankroll
  {
    Bankroll(INITIAL_BALANCE, MIN_BET, 0, None)
  }

  /** The loop guard: the balance still covers the current bet. */
  predicate CanBet(s: Bankroll)
  {
    s.balance >= s.currentBet
  }

  /** What the run loop keeps true of the bankroll between rounds. */
  predicate ValidBankroll(s: Bankroll)
  {
    s.balance >= 0 && s.currentBet >= 0 && 0 <= s.consecutiveLosses < MAX_CONSECUTIVE_LOSSES
  }

  /** One round of the run loop: the record it appends and the next bankroll state. */
  function PlayRound(strategy: StrategyId, roundNum: nat, s: Bankroll, result: GameResult): (RoundHistory, Bankroll)
  {
    var target := GetBetTarget(strategy, roundNum, s.lastWinner);
    var bet := Min(s.currentBet, s.balance);
    match result
    case Tie =>
      (RoundHistory(roundNum, bet, target, result, s.balance, s.balance, TieRefund), s)
    case Decided(w) =>
      if w == target then
        var win := Payout(target, bet);
        (RoundHistory(roundNum, bet, target, result, s.balance, s.balance + win, WonAmount(win)),
         Bankroll(s.balance + win, MIN_BET, 0, Some(w)))
      else
        var balance := s.balance - bet;
        var losses := s.consecutiveLosses + 1;
        if losses >= MAX_CONSECUTIVE_LOSSES then
          (RoundHistory(roundNum, bet, target, result, s.balance, balance, LostReset(bet)),
           Bankroll(balance, MIN_BET, 0, Some(w)))
        else
          var next := Min(s.currentBet * 2, balance);
          (RoundHistory(roundNum, bet, target, result, s.balance, balance, LostDoubled(bet, next)),
           Bankroll(balance, next, losses, Some(w)))
  }

  datatype RoundOutcome = WonRound | LostRound | TiedRound

  /** How a record's round went for the bettor. */
  function OutcomeOf(r: RoundHistory): RoundOutcome
  {
    if r.result == Tie then TiedRound
    else if r.result.winner == r.betTarget then WonRound
    else LostRound
  }

  /** The delta column of the history export. */
  function ExportDelta(r: RoundHistory): int
  {
    r.balanceAfter - r.balanceBefore
  }

  /** A round record as the run loop writes it: a stake within the balance, and a balance change and action that match the outcome. */
  predicate WellFormed(r: RoundHistory)
  {
    && 0 <= r.bet <= r.balanceBefore
    && r.balanceAfter >= 0
    && match OutcomeOf(r)
       case TiedRound => ExportDelta(r) == 0 && r.action == TieRefund
       case WonRound => ExportDelta(r) == Payout(r.betTarget, r.bet) && r.action == WonAmount(ExportDelta(r))
       case LostRound => ExportDelta(r) == -r.bet && (r.action == LostReset(r.bet) || (r.action.LostDoubled? && r.action.amount == r.bet))
  }

  /** A tie changes nothing: same bankroll, balance after equals balance before. */
  lemma TieLeavesBankroll(strategy: StrategyId, roundNum: nat, s: Bankroll)
    ensures PlayRound(strategy, roundNum, s, Tie).1 == s
    ensures PlayRound(strategy, roundNum, s, Tie).0.balanceAfter == s.balance
  {
  }

  /** A win records the winner, adds the payout, and resets the bet and the loss streak. */
  lemma WinResetsProgression(strategy: StrategyId, roundNum: nat, s: Bankroll)
    ensures var target := GetBetTarget(strategy, roundNum, s.lastWinner);
            var s' := PlayRound(strategy, roundNum, s, Decided(target)).1;
            s' == Bankroll(s.balance + Payout(target, Min(s.currentBet, s.balance)), MIN_BET, 0, Some(target))
  {
  }

  /** A loss takes the stake; the third loss in a row resets the bet, any other doubles it, capped by the balance. */
  lemma LossDoublesOrResets(strategy: StrategyId, roundNum: nat, s: Bankroll, w: BetTarget)
    requires w != GetBetTarget(strategy, roundNum, s.lastWinner)
    ensures var s' := PlayRound(strategy, roundNum, s, Decided(w)).1;
            && s'.balance == s.balance - Min(s.currentBet, s.balance)
            && s'.lastWinner == Some(w)
            && (s.consecutiveLosses + 1 >= MAX_CONSECUTIVE_LOSSES ==> s'.currentBet == MIN_BET && s'.consecutiveLosses == 0)
            && (s.consecutiveLosses + 1 < MAX_CONSECUTIVE_LOSSES ==>
                  s'.currentBet == Min(2 * s.currentBet, s'.balance) && s'.consecutiveLosses == s.consecutiveLosses + 1)
  {
  }

  /** Each round keeps the bankroll invariant and writes a well-formed record that starts at the current balance and ends at the new one. */
  lemma PlayRoundFacts(strategy: StrategyId, roundNum: nat, s: Bankroll, result: GameResult)
    requires ValidBankroll(s)
    ensures var (rec, s') := PlayRound(strategy, roundNum, s, result);
            && ValidBankroll(s')
            && WellFormed(rec)
            && rec.round == roundNum
            && rec.bet == Min(s.currentBet, s.balance)
            && rec.betTarget == GetBetTarget(strategy, roundNum, s.lastWinner)
            && rec.result == result
            && rec.balanceBefore == s.balance
            && rec.balanceAfter == s'.balance
            && s'.lastWinner == (if result == Tie then s.lastWinner else Some(result.winner))
  {
    PayoutBounds(GetBetTarget(strategy, roundNum, s.lastWinner), Min(s.currentBet, s.balance));
  }

  /**
    The quirk of a loss that empties the balance: the next bet becomes
    min(2 * currentBet, 0) = 0, the loop guard 0 >= 0 still holds, and the
    following round is played with a zero stake.
  */
  lemma ZeroStakeRoundsContinue(strategy: StrategyId, roundNum: nat, s: Bankroll, w: BetTarget, next: GameResult)
    requires s.balance > 0 && s.currentBet >= s.balance
    requires 0 <= s.consecutiveLosses && s.consecutiveLosses + 1 < MAX_CONSECUTIVE_LOSSES
    requires w != GetBetTarget(strategy, roundNum, s.lastWinner)
    ensures var s' := PlayRound(strategy, roundNum, s, Decided(w)).1;
            && s'.balance == 0 && s'.currentBet == 0 && CanBet(s')
            && PlayRound(strategy, roundNum + 1, s', next).0.bet == 0
  {
  }

  // ---------------------------------------------------------------------
  // The run
  // ---------------------------------------------------------------------

  /** The round-count widget's value: at least 1, and 1 when the text is not a number. */
  function ClampRounds(parsed: Option<int>): (n: nat)
    ensures n >= 1
    ensures parsed.Some? && parsed.value >= 1 ==> n == parsed.value
    ensures parsed.None? || parsed.value <= 1 ==> n == 1
  {
    var v := if parsed.Some? && parsed.value != 0 then parsed.value else 1;
    if v >= 1 then v else 1
  }

  /**
    The rounds played from loop index `i` with bankroll `s`: the records
    appended and the bankroll when the loop stops, either because the
    round budget `simCount` is used up or because the balance no longer
    covers the current bet.
  */
  function Simulate(strategy: StrategyId, simCount: nat, outcomes: seq<GameResult>, i: nat, s: Bankroll): (seq<RoundHistory>, Bankroll)
    requires |outcomes| >= simCount
    decreases simCount - i
  {
    if i < simCount && CanBet(s) then
      var (rec, s') := PlayRound(strategy, i + 1, s, outcomes[i]);
      var (rest, final) := Simulate(strategy, simCount, outcomes, i + 1, s');
      ([rec] + rest, final)
    else
      ([], s)
  }

  /** The number of records whose round went `o` for the bettor. */
  function CountOf(h: seq<RoundHistory>, o: RoundOutcome): nat
  {
    if h == [] then 0
    else CountOf(h[..|h| - 1], o) + (if OutcomeOf(h[|h| - 1]) == o then 1 else 0)
  }

  /** The balance after the last record, or the initial balance for an empty history. */
  function LastBalance(h: seq<RoundHistory>): int
  {
    if h == [] then INITIAL_BALANCE else h[|h| - 1].balanceAfter
  }

  /** The summary of a finished run, read off its history. */
  function Summarize(h: seq<RoundHistory>): SimulationResults
  {
    var finalBalance := LastBalance(h);
    SimulationResults(finalBalance, finalBalance - INITIAL_BALANCE, |h|,
                      CountOf(h, WonRound), CountOf(h, LostRound), CountOf(h, TiedRound))
  }

  /** Every record is won, lost or tied, so the three counts add up to the number of rounds. */
  lemma {:induction false} CountsPartition(h: seq<RoundHistory>)
    ensures CountOf(h, WonRound) + CountOf(h, LostRound) + CountOf(h, TiedRound) == |h|
  {
    if h != [] {
      CountsPartition(h[..|h| - 1]);
    }
  }

  /** The summary's totals agree with each other and with the history. */
  lemma SummaryConsistent(h: seq<RoundHistory>)
    ensures var r := Summarize(h);
            && r.wins + r.losses + r.ties == r.totalRounds == |h|
            && r.profit == r.finalBalance - INITIAL_BALANCE
            && (h != [] ==> r.finalBalance == h[|h| - 1].balanceAfter)
  {
    CountsPartition(h);
  }

  /** Records are numbered consecutively from i + 1, and at most the remaining budget is played. */
  lemma {:induction false} SimulateNumbering(strategy: StrategyId, simCount: nat, outcomes: seq<GameResult>, i: nat, s: Bankroll)
    requires |outcomes| >= simCount
    ensures var h := Simulate(strategy, simCount, outcomes, i, s).0;
            && (i <= simCount ==> |h| <= simCount - i)
            && (i > simCount ==> h == [])
            && forall k :: 0 <= k < |h| ==> h[k].round == i + 1 + k && h[k].result == outcomes[i + k]
    decreases simCount - i
  {
    if i < simCount && CanBet(s) {
      var s' := PlayRound(strategy, i + 1, s, outcomes[i]).1;
      SimulateNumbering(strategy, simCount, outcomes, i + 1, s');
    }
  }

  /**
    From a valid bankroll, every record is well formed, each record starts
    at the balance where the previous one ended, the bankroll stays valid,
    and the final balance is where the last record ended.
  */
  lemma {:induction false} SimulateLedger(strategy: StrategyId, simCount: nat, outcomes: seq<GameResult>, i: nat, s: Bankroll)
    requires |outcomes| >= simCount
    requires ValidBankroll(s)
    ensures var (h, f) := Simulate(strategy, simCount, outcomes, i, s);
            && ValidBankroll(f)
            && (forall k :: 0 <= k < |h| ==> WellFormed(h[k]))
            && (|h| > 0 ==> h[0].balanceBefore == s.balance)
            && (forall k :: 0 < k < |h| ==> h[k].balanceBefore == h[k - 1].balanceAfter)
            && f.balance == (if h == [] then s.balance else h[|h| - 1].balanceAfter)
    decreases simCount - i
  {
    if i < simCount && CanBet(s) {
      var (rec, s') := PlayRound(strategy, i + 1, s, outcomes[i]);
      PlayRoundFacts(strategy, i + 1, s, outcomes[i]);
      SimulateLedger(strategy, simCount, outcomes, i + 1, s');
    }
  }

  /** The run is cut short of its budget only when the final balance does not cover the final bet. */
  lemma {:induction false} SimulateStopsEarlyOnlyWhenBroke(strategy: StrategyId, simCount: nat, outcomes: seq<GameResult>, i: nat, s: Bankroll)
    requires |outcomes| >= simCount
    requires i <= simCount
    ensures var (h, f) := Simulate(strategy, simCount, outcomes, i, s);
            |h| < simCount - i ==> !CanBet(f)
    decreases simCount - i
  {
    if i < simCount && CanBet(s) {
      var s' := PlayRound(strategy, i + 1, s, outcomes[i]).1;
      SimulateStopsEarlyOnlyWhenBroke(strategy, simCount, outcomes, i + 1, s');
    }
  }

  /**
    Under followWinner, the round after a decided round backs that round's
    winner, and the round after a tie backs what the tied round backed.
  */
  lemma {:induction false} FollowWinnerTracksResults(simCount: nat, outcomes: seq<GameResult>, i: nat, s: Bankroll)
    requires |outcomes| >= simCount
    ensures var h := Simulate(FollowWinner, simCount, outcomes, i, s).0;
            && (|h| > 0 ==> h[0].betTarget == GetBetTarget(FollowWinner, i + 1, s.lastWinner))
            && forall k :: 0 < k < |h| ==>
                 h[k].betTarget == (if h[k - 1].result == Tie then h[k - 1].betTarget else h[k - 1].result.winner)
    decreases simCount - i
  {
    if i < simCount && CanBet(s) {
      var (rec, s') := PlayRound(FollowWinner, i + 1, s, outcomes[i]);
      FollowWinnerTracksResults(simCount, outcomes, i + 1, s');
      var rest := Simulate(FollowWinner, simCount, outcomes, i + 1, s').0;
      if |rest| > 0 {
        assert rest[0].betTarget == GetBetTarget(FollowWinner, i + 2, s'.lastWinner);
      }
    }
  }

  /** Simulate unfolded by one round. */
  lemma SimulateStep(strategy: StrategyId, simCount: nat, outcomes: seq<GameResult>, i: nat, s: Bankroll)
    requires |outcomes| >= simCount
    requires i < simCount && CanBet(s)
    ensures var (rec, s') := PlayRound(strategy, i + 1, s, outcomes[i]);
            var rest := Simulate(strategy, simCount, outcomes, i + 1, s');
            Simulate(strategy, simCount, outcomes, i, s) == ([rec] + rest.0, rest.1)
  {
  }

  /** Appending a record adds one to exactly the count of its outcome. */
  lemma CountOfAppend(h: seq<RoundHistory>, r: RoundHistory, o: RoundOutcome)
    ensures CountOf(h + [r], o) == CountOf(h, o) + (if OutcomeOf(r) == o then 1 else 0)
  {
    assert (h + [r])[..|h|] == h;
  }

  /**
    The simulation run: plays rounds while the budget lasts and the balance
    covers the current bet, appending one record per round, then summarises.
  */
  method RunSimulation(strategy: StrategyId, simCount: nat, outcomes: seq<GameResult>)
    returns (results: SimulationResults, history: seq<RoundHistory>)
    requires |outcomes| >= simCount
    ensures history == Simulate(strategy, simCount, outcomes, 0, InitialBankroll()).0
    ensures results == Summarize(history)
    ensures results.finalBalance == Simulate(strategy, simCount, outcomes, 0, InitialBankroll()).1.balance
  {
    var balance := INITIAL_BALANCE;
    var currentBet := MIN_BET;
    var consecutiveLosses := 0;
    var lastWinner: Option<BetTarget> := None;
    history := [];
    var totalWins, totalLosses, totalTies := 0, 0, 0;
    ghost var run := Simulate(strategy, simCount, outcomes, 0, InitialBankroll());

    var i := 0;
    assert history + run.0 == run.0;
    while i < simCount && balance >= currentBet
      invariant 0 <= i <= simCount
      invariant var rest := Simulate(strategy, simCount, outcomes, i, Bankroll(balance, currentBet, consecutiveLosses, lastWinner));
                run == (history + rest.0, rest.1)
      invariant balance == LastBalance(history)
      invariant totalWins == CountOf(history, WonRound)
      invariant totalLosses == CountOf(history, LostRound)
      invariant totalTies == CountOf(history, TiedRound)
    {
      var roundNum := i + 1;
      var betTarget := GetBetTarget(strategy, roundNum, lastWinner);
      var result := outcomes[i];
      var betAmount := Min(currentBet, balance);
      ghost var before := Bankroll(balance, currentBet, consecutiveLosses, lastWinner);
      var roundResult := RoundHistory(roundNum, betAmount, betTarget, result, balance, balance, TieRefund);

      if result == Tie {
        totalTies := totalTies + 1;
      } else {
        lastWinner := Some(result.winner);
        if result.winner == betTarget {
          var winAmount := Payout(betTarget, betAmount);
          balance := balance + winAmount;
          totalWins := totalWins + 1;
          consecutiveLosses := 0;
          currentBet := MIN_BET;
          roundResult := roundResult.(action := WonAmount(winAmount));
        } else {
          balance := balance - betAmount;
          totalLosses := totalLosses + 1;
          consecutiveLosses := consecutiveLosses + 1;
          if consecutiveLosses >= MAX_CONSECUTIVE_LOSSES {
            currentBet := MIN_BET;
            consecutiveLosses := 0;
            roundResult := roundResult.(action := LostReset(betAmount));
          } else {
            currentBet := Min(currentBet * 2, balance);
            roundResult := roundResult.(action := LostDoubled(betAmount, currentBet));
          }
        }
      }

      roundResult := roundResult.(balanceAfter := balance);
      ghost var after := Bankroll(balance, currentBet, consecutiveLosses, lastWinner);
      assert PlayRound(strategy, roundNum, before, result) == (roundResult, after);
      SimulateStep(strategy, simCount, outcomes, i, before);
      ghost var rest := Simulate(strategy, simCount, outcomes, i + 1, after);
      assert history + ([roundResult] + rest.0) == (history + [roundResult]) + rest.0;
      CountOfAppend(history, roundResult, WonRound);
      CountOfAppend(history, roundResult, LostRound);
      CountOfAppend(history, roundResult, TiedRound);
      history := history + [roundResult];
      i := i + 1;
    }

    results := SimulationResults(balance, balance - INITIAL_BALANCE, |history|, totalWins, totalLosses, totalTies);
  }

  /** The headline facts about a run from the initial bankroll, as RunSimulation returns it. */
  lemma {:induction false} RunFacts(strategy: StrategyId, simCount: nat, outcomes: seq<GameResult>)
    requires |outcomes| >= simCount
    ensures var (h, f) := Simulate(strategy, simCount, outcomes, 0, InitialBankroll());
            var r := Summarize(h);
            && |h| <= simCount
            && (|h| < simCount ==> f.balance < f.currentBet)
            && (forall k :: 0 <= k < |h| ==> h[k].round == k + 1 && WellFormed(h[k]))
            && (forall k :: 0 < k < |h| ==> h[k].balanceBefore == h[k - 1].balanceAfter)
            && (|h| > 0 ==> h[0].balanceBefore == INITIAL_BALANCE)
            && r.finalBalance == f.balance >= 0
            && r.wins + r.losses + r.ties == r.totalRounds
            && r.profit == r.finalBalance - INITIAL_BALANCE
  {
    SimulateNumbering(strategy, simCount, outcomes, 0, InitialBankroll());
    SimulateLedger(strategy, simCount, outcomes, 0, InitialBankroll());
    SimulateStopsEarlyOnlyWhenBroke(strategy, simCount, outcomes, 0, InitialBankroll());
    SummaryConsistent(Simulate(strategy, simCount, outcomes, 0, InitialBankroll()).0);
  }
}

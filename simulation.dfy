/**
 * The trial runner: repeats whole battles and counts how many the attacker wins.
 */
module Simulation {
  import opened Dice
  import opened Sorting
  import opened Battle

  /**
   * The specification of one trial: rounds are fought from stream position
   * `from` while both sides have units. Yields the final unit counts and the
   * stream position after the trial.
   */
  function Trial(draws: nat -> nat, from: nat, s: Armies): (after: After)
    decreases s.defenders + s.attackers
  {
    if !Fighting(s) then After(s, from)
    else
      RoundProgress(draws, from, s);
      Trial(draws, Round(draws, from, s).next, Round(draws, from, s).armies)
  }

  /** How many trials the `for` loop runs for a requested simulation count. */
  function Trials(numSimulations: int): nat
  {
    if numSimulations > 0 then numSimulations else 0
  }

  /** The number of trials the attacker won, and the stream position reached. */
  datatype Tally = Tally(wins: nat, next: nat)

  /**
   * The specification of the first `trials` trials, all from the starting
   * counts `start` and drawing from one shared stream in order: the number
   * won by the attacker and the stream position afterwards.
   */
  function Victories(draws: nat -> nat, from: nat, trials: nat, start: Armies): (tally: Tally)
  {
    if trials == 0 then Tally(0, from)
    else
      var earlier := Victories(draws, from, trials - 1, start);
      var trial := Trial(draws, earlier.next, start);
      Tally(if trial.armies.attackers > 0 then earlier.wins + 1 else earlier.wins, trial.next)
  }

  /**
   * Every trial stops with at least one side out of units, neither side ever
   * gains units, and the stream only moves forward.
   */
  lemma {:induction false} TrialEnds(draws: nat -> nat, from: nat, s: Armies)
    ensures !Fighting(Trial(draws, from, s).armies)
    ensures Trial(draws, from, s).armies.defenders <= s.defenders
    ensures Trial(draws, from, s).armies.attackers <= s.attackers
    ensures Trial(draws, from, s).next >= from
    decreases s.defenders + s.attackers
  {
    if Fighting(s) {
      RoundProgress(draws, from, s);
      TrialEnds(draws, Round(draws, from, s).next, Round(draws, from, s).armies);
    }
  }

  /**
   * From non-negative starting counts, no count ever goes negative, and unless
   * both sides start empty the trial ends with exactly one side wiped out: the
   * attacker wins (keeps units) exactly when the defender is eliminated.
   */
  lemma {:induction false} TrialOutcome(draws: nat -> nat, from: nat, s: Armies)
    requires s.defenders >= 0 && s.attackers >= 0
    ensures Trial(draws, from, s).armies.defenders >= 0 && Trial(draws, from, s).armies.attackers >= 0
    ensures s.defenders > 0 || s.attackers > 0 ==>
              (Trial(draws, from, s).armies.attackers > 0 <==> Trial(draws, from, s).armies.defenders == 0)
    decreases s.defenders + s.attackers
  {
    if Fighting(s) {
      RoundProgress(draws, from, s);
      TrialOutcome(draws, Round(draws, from, s).next, Round(draws, from, s).armies);
    }
  }

  /** The attacker wins at most as many trials as are run. */
  lemma {:induction false} VictoriesAtMostTrials(draws: nat -> nat, from: nat, trials: nat, start: Armies)
    ensures Victories(draws, from, trials, start).wins <= trials
  {
    if trials > 0 {
      VictoriesAtMostTrials(draws, from, trials - 1, start);
    }
  }

  /** With no defenders and some attackers, every trial is a win and no dice are rolled. */
  lemma {:induction false} VictoriesWithoutDefenders(draws: nat -> nat, from: nat, trials: nat, start: Armies)
    requires start.defenders <= 0 && start.attackers > 0
    ensures Victories(draws, from, trials, start) == Tally(trials, from)
  {
    if trials > 0 {
      VictoriesWithoutDefenders(draws, from, trials - 1, start);
    }
  }

  /** Without attackers, no trial is a win, whatever the defenders. */
  lemma {:induction false} VictoriesWithoutAttackers(draws: nat -> nat, from: nat, trials: nat, start: Armies)
    requires start.attackers <= 0
    ensures Victories(draws, from, trials, start).wins == 0
  {
    if trials > 0 {
      VictoriesWithoutAttackers(draws, from, trials - 1, start);
      var next := Victories(draws, from, trials - 1, start).next;
      TrialEnds(draws, next, start);
    }
  }

  /** The bounds on the number of wins, gathered for the trial runner. */
  lemma {:induction false} VictoriesBounds(draws: nat -> nat, from: nat, trials: nat, start: Armies)
    ensures Victories(draws, from, trials, start).wins <= trials
    ensures start.defenders <= 0 && start.attackers > 0 ==> Victories(draws, from, trials, start).wins == trials
    ensures start.attackers <= 0 ==> Victories(draws, from, trials, start).wins == 0
  {
    VictoriesAtMostTrials(draws, from, trials, start);
    if start.defenders <= 0 && start.attackers > 0 {
      VictoriesWithoutDefenders(draws, from, trials, start);
    }
    if start.attackers <= 0 {
      VictoriesWithoutAttackers(draws, from, trials, start);
    }
  }

  /**
   * Allocates a roll buffer of `k` dice, fills it from the stream and sorts it
   * descending: the three steps the loop body performs for each side.
   */
  method RollSorted(k: nat, src: RandomSource) returns (rolls: array<uint8>)
    modifies src
    ensures fresh(rolls)
    ensures rolls[..] == SortedRolls(src.draws, old(src.used), k)
    ensures src.used == old(src.used) + k
  {
    rolls := new uint8[k];
    FillWithDiceRolls(rolls, src);
    SortDescending(rolls);
  }

  /**
   * One pass of the per-trial loop body of `calculate_probability_of_victory`:
   * caps the dice, rolls and sorts the attacker's dice, then the defender's,
   * and applies the casualties. Agrees with `Round` on the new counts and on
   * the draws consumed.
   */
  method FightRound(numDefendersLeft: int, numAttackersLeft: int, src: RandomSource)
    returns (defendersLeft: int, attackersLeft: int)
    modifies src
    ensures Armies(defendersLeft, attackersLeft) == Round(src.draws, old(src.used), Armies(numDefendersLeft, numAttackersLeft)).armies
    ensures src.used == Round(src.draws, old(src.used), Armies(numDefendersLeft, numAttackersLeft)).next
  {
    var numAttackersDice := DiceCount(numAttackersLeft, AttackerDiceCap);
    var numDefendersDice := DiceCount(numDefendersLeft, DefenderDiceCap);
    var attackerDiceRolls := RollSorted(numAttackersDice, src);
    var defenderDiceRolls := RollSorted(numDefendersDice, src);
    defendersLeft, attackersLeft := ApplyBattleResult(defenderDiceRolls, attackerDiceRolls, numDefendersLeft, numAttackersLeft);
  }

  /**
   * One trial of `calculate_probability_of_victory`: starts from the given
   * counts and fights rounds while both sides have units. Agrees with `Trial`.
   */
  method RunTrial(numDefenders: int, numAttackers: int, src: RandomSource)
    returns (numDefendersLeft: int, numAttackersLeft: int)
    modifies src
    ensures Armies(numDefendersLeft, numAttackersLeft) == Trial(src.draws, old(src.used), Armies(numDefenders, numAttackers)).armies
    ensures src.used == Trial(src.draws, old(src.used), Armies(numDefenders, numAttackers)).next
  {
    numDefendersLeft := numDefenders;
    numAttackersLeft := numAttackers;
    while numDefendersLeft > 0 && numAttackersLeft > 0
      invariant Trial(src.draws, src.used, Armies(numDefendersLeft, numAttackersLeft))
             == Trial(src.draws, old(src.used), Armies(numDefenders, numAttackers))
      decreases numDefendersLeft + numAttackersLeft
    {
      ghost var s := Armies(numDefendersLeft, numAttackersLeft);
      ghost var roundStart := src.used;
      numDefendersLeft, numAttackersLeft := FightRound(numDefendersLeft, numAttackersLeft, src);
      RoundProgress(src.draws, roundStart, s);
    }
  }

  /**
   * One pass of the `for` loop of `calculate_probability_of_victory`: runs one
   * more trial and adds one to the count when the attacker won it.
   */
  method CountNextTrial(numVictories: nat, numDefenders: int, numAttackers: int, src: RandomSource,
                        ghost from: nat, ghost trials: nat)
    returns (newVictories: nat)
    requires numVictories == Victories(src.draws, from, trials, Armies(numDefenders, numAttackers)).wins
    requires src.used == Victories(src.draws, from, trials, Armies(numDefenders, numAttackers)).next
    modifies src
    ensures newVictories == Victories(src.draws, from, trials + 1, Armies(numDefenders, numAttackers)).wins
    ensures src.used == Victories(src.draws, from, trials + 1, Armies(numDefenders, numAttackers)).next
  {
    var numDefendersLeft, numAttackersLeft := RunTrial(numDefenders, numAttackers, src);
    newVictories := numVictories;
    if numAttackersLeft > 0 {
      newVictories := newVictories + 1;
    }
  }

  /**
   * `calculate_probability_of_victory` without its final division: runs
   * `numSimulations` trials from `numDefenders` defenders and `numAttackers`
   * attackers (the order the source declares) and returns how many of them the
   * attacker won.
   */
  method CountVictories(numSimulations: int, numDefenders: int, numAttackers: int, src: RandomSource)
    returns (numVictories: nat)
    modifies src
    ensures numVictories == Victories(src.draws, old(src.used), Trials(numSimulations), Armies(numDefenders, numAttackers)).wins
    ensures src.used == Victories(src.draws, old(src.used), Trials(numSimulations), Armies(numDefenders, numAttackers)).next
    ensures numVictories <= Trials(numSimulations)
    ensures numDefenders <= 0 && numAttackers > 0 ==> numVictories == Trials(numSimulations)
    ensures numAttackers <= 0 ==> numVictories == 0
  {
    ghost var start := Armies(numDefenders, numAttackers);
    numVictories := 0;
    var i := 0;
    while i < numSimulations
      invariant 0 <= i <= Trials(numSimulations)
      invariant numVictories == Victories(src.draws, old(src.used), i, start).wins
      invariant src.used == Victories(src.draws, old(src.used), i, start).next
    {
      numVictories := CountNextTrial(numVictories, numDefenders, numAttackers, src, old(src.used), i);
      i := i + 1;
    }
    assert i == Trials(numSimulations);
    VictoriesBounds(src.draws, old(src.used), i, start);
  }

  /**
   * The estimate the source reports, as an exact ratio (the source divides in
   * single-precision floating point).
   */
  function VictoryRatio(numVictories: nat, numSimulations: int): (p: real)
    requires numSimulations > 0 && numVictories <= numSimulations
    ensures 0.0 <= p <= 1.0
    ensures p == 1.0 <==> numVictories == numSimulations
    ensures p == 0.0 <==> numVictories == 0
  {
    numVictories as real / numSimulations as real
  }
}

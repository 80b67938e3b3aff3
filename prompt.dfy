/**
 * One pass of the interactive loop of `main`: the user enters the attacking
 * army first and the defending army second, and the estimate is computed for
 * them. The console I/O itself is not modelled; the entered counts are
 * parameters.
 */
module Prompt {
  import opened Dice
  import opened Battle
  import opened Simulation

  /**
   * The call as `main` makes it: the entered attacker count is passed in the
   * position of `num_defenders` and the entered defender count in the position
   * of `num_attackers`, so the two armies trade roles.
   */
  method QueryAsWritten(numSimulations: int, numAttackers: int, numDefenders: int, src: RandomSource)
    returns (numVictories: nat)
    modifies src
    ensures numVictories == Victories(src.draws, old(src.used), Trials(numSimulations), Armies(numAttackers, numDefenders)).wins
    ensures numDefenders <= 0 ==> numVictories == 0
  {
    numVictories := CountVictories(numSimulations, numAttackers, numDefenders, src);
  }

  /**
   * The call with the arguments in the declared order: the entered defenders
   * defend and the entered attackers attack.
   */
  method Query(numSimulations: int, numAttackers: int, numDefenders: int, src: RandomSource)
    returns (numVictories: nat)
    modifies src
    ensures numVictories == Victories(src.draws, old(src.used), Trials(numSimulations), Armies(numDefenders, numAttackers)).wins
    ensures numAttackers <= 0 ==> numVictories == 0
    ensures numDefenders <= 0 && numAttackers > 0 ==> numVictories == Trials(numSimulations)
  {
    numVictories := CountVictories(numSimulations, numDefenders, numAttackers, src);
  }

  /**
   * An attacker with units facing no defenders wins every trial when the
   * counts are passed in the declared order, but the swapped call
   * in `main` lets the attacker win none of them: whatever the dice, the
   * reported chance of a certain victory is zero.
   */
  lemma {:induction false} SwappedCallReportsSureWinAsLoss(draws: nat -> nat, from: nat, numSimulations: int, numAttackers: int)
    requires numSimulations > 0 && numAttackers > 0
    ensures Victories(draws, from, Trials(numSimulations), Armies(0, numAttackers)).wins == numSimulations
    ensures Victories(draws, from, Trials(numSimulations), Armies(numAttackers, 0)).wins == 0
  {
    VictoriesWithoutDefenders(draws, from, Trials(numSimulations), Armies(0, numAttackers));
    VictoriesWithoutAttackers(draws, from, Trials(numSimulations), Armies(numAttackers, 0));
  }
}

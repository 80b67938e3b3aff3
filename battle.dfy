/**
 * One round of a battle: how many dice each side commits, and how the sorted
 * rolls are paired off into casualties.
 */
module Battle {
  import opened Dice
  import opened Sorting

  /** The most dice the attacker may roll in one round. */
  const AttackerDiceCap: nat := 3
  /** The most dice the defender may roll in one round. */
  const DefenderDiceCap: nat := 2

  /** The unit counts of both sides, in the order the source declares them. */
  datatype Armies = Armies(defenders: int, attackers: int)

  /** The unit counts of both sides after a round or a trial, and the stream position reached. */
  datatype After = After(armies: Armies, next: nat)

  /** The guard of the per-trial loop: both sides still have units. */
  predicate Fighting(s: Armies)
  {
    s.defenders > 0 && s.attackers > 0
  }

  /** `std::clamp(left, 0, cap)`: how many dice a side with `left` units rolls. */
  function DiceCount(left: int, cap: nat): (n: nat)
    ensures n <= cap
    ensures left <= 0 ==> n == 0
    ensures left > 0 ==> n <= left && (n == cap || n == left)
    ensures left > 0 && cap > 0 ==> n >= 1
  {
    if left < 0 then 0 else if cap < left then cap else left
  }

  /** How many roll pairs are compared: the length of the shorter roll buffer. */
  function Pairings(defenderRolls: seq<uint8>, attackerRolls: seq<uint8>): (n: nat)
    ensures n <= |defenderRolls| && n <= |attackerRolls|
    ensures n == |defenderRolls| || n == |attackerRolls|
  {
    if |defenderRolls| < |attackerRolls| then |defenderRolls| else |attackerRolls|
  }

  /** Units the defender loses over the first `n` pairs: one per strictly higher attacker roll. */
  function DefenderLosses(defenderRolls: seq<uint8>, attackerRolls: seq<uint8>, n: nat): (k: nat)
    requires n <= |defenderRolls| && n <= |attackerRolls|
    ensures k <= n
  {
    if n == 0 then 0
    else DefenderLosses(defenderRolls, attackerRolls, n - 1) + (if attackerRolls[n - 1] > defenderRolls[n - 1] then 1 else 0)
  }

  /** Units the attacker loses over the first `n` pairs: one per roll that does not beat the defender's (ties included). */
  function AttackerLosses(defenderRolls: seq<uint8>, attackerRolls: seq<uint8>, n: nat): (k: nat)
    requires n <= |defenderRolls| && n <= |attackerRolls|
    ensures k <= n
  {
    if n == 0 then 0
    else AttackerLosses(defenderRolls, attackerRolls, n - 1) + (if attackerRolls[n - 1] <= defenderRolls[n - 1] then 1 else 0)
  }

  /** Every compared pair costs exactly one side exactly one unit. */
  lemma {:induction false} LossesSumToPairs(defenderRolls: seq<uint8>, attackerRolls: seq<uint8>, n: nat)
    requires n <= |defenderRolls| && n <= |attackerRolls|
    ensures DefenderLosses(defenderRolls, attackerRolls, n) + AttackerLosses(defenderRolls, attackerRolls, n) == n
  {
    if n > 0 {
      LossesSumToPairs(defenderRolls, attackerRolls, n - 1);
    }
  }

  /** The defender loses exactly one unit per position where the attacker's roll is strictly higher. */
  lemma {:induction false} DefenderLossesCountWins(defenderRolls: seq<uint8>, attackerRolls: seq<uint8>, n: nat)
    requires n <= |defenderRolls| && n <= |attackerRolls|
    ensures DefenderLosses(defenderRolls, attackerRolls, n) == |set i | 0 <= i < n && attackerRolls[i] > defenderRolls[i]|
  {
    if n > 0 {
      DefenderLossesCountWins(defenderRolls, attackerRolls, n - 1);
      var won := set i | 0 <= i < n - 1 && attackerRolls[i] > defenderRolls[i];
      if attackerRolls[n - 1] > defenderRolls[n - 1] {
        assert (set i | 0 <= i < n && attackerRolls[i] > defenderRolls[i]) == won + {n - 1};
      } else {
        assert (set i | 0 <= i < n && attackerRolls[i] > defenderRolls[i]) == won;
      }
    }
  }

  /**
   * The attacker loses exactly one unit per position where its roll does not
   * beat the defender's: ties go to the defender.
   */
  lemma {:induction false} AttackerLossesCountTiesAndDefeats(defenderRolls: seq<uint8>, attackerRolls: seq<uint8>, n: nat)
    requires n <= |defenderRolls| && n <= |attackerRolls|
    ensures AttackerLosses(defenderRolls, attackerRolls, n) == |set i | 0 <= i < n && attackerRolls[i] <= defenderRolls[i]|
  {
    if n > 0 {
      AttackerLossesCountTiesAndDefeats(defenderRolls, attackerRolls, n - 1);
      var lost := set i | 0 <= i < n - 1 && attackerRolls[i] <= defenderRolls[i];
      if attackerRolls[n - 1] <= defenderRolls[n - 1] {
        assert (set i | 0 <= i < n && attackerRolls[i] <= defenderRolls[i]) == lost + {n - 1};
      } else {
        assert (set i | 0 <= i < n && attackerRolls[i] <= defenderRolls[i]) == lost;
      }
    }
  }

  /**
   * `calculate_and_apply_single_battle_result`: compares the rolls pair by pair
   * up to the shorter buffer and takes one unit from the losing side of each
   * pair. The two counters the source updates by reference are passed in and
   * returned.
   */
  method ApplyBattleResult(defenderRolls: array<uint8>, attackerRolls: array<uint8>,
                           numDefendersLeft: int, numAttackersLeft: int)
    returns (defendersLeft: int, attackersLeft: int)
    ensures Armies(defendersLeft, attackersLeft) == Resolve(defenderRolls[..], attackerRolls[..], Armies(numDefendersLeft, numAttackersLeft))
    ensures defendersLeft <= numDefendersLeft && attackersLeft <= numAttackersLeft
    ensures (numDefendersLeft - defendersLeft) + (numAttackersLeft - attackersLeft) == Pairings(defenderRolls[..], attackerRolls[..])
  {
    var numBattles := if defenderRolls.Length < attackerRolls.Length then defenderRolls.Length else attackerRolls.Length;
    defendersLeft, attackersLeft := numDefendersLeft, numAttackersLeft;
    var i := 0;
    while i < numBattles
      invariant 0 <= i <= numBattles
      invariant defendersLeft == numDefendersLeft - DefenderLosses(defenderRolls[..], attackerRolls[..], i)
      invariant attackersLeft == numAttackersLeft - AttackerLosses(defenderRolls[..], attackerRolls[..], i)
    {
      if attackerRolls[i] > defenderRolls[i] {
        defendersLeft := defendersLeft - 1;
      } else {
        attackersLeft := attackersLeft - 1;
      }
      i := i + 1;
    }
    LossesSumToPairs(defenderRolls[..], attackerRolls[..], numBattles);
  }

  /** `k` rolls drawn from stream position `from`, sorted descending. */
  function SortedRolls(draws: nat -> nat, from: nat, k: nat): (rolls: seq<uint8>)
    ensures |rolls| == k
  {
    SortDesc(Faces(draws, from, k))
  }

  /**
   * The specification of one pass of the per-trial loop body starting at stream
   * position `from`: the attacker's dice are rolled first, then the
   * defender's; both are sorted descending and paired off. Yields the new unit
   * counts and the stream position after the round.
   */
  function Round(draws: nat -> nat, from: nat, s: Armies): (after: After)
  {
    After(Resolve(SortedRolls(draws, from + DiceCount(s.attackers, AttackerDiceCap), DiceCount(s.defenders, DefenderDiceCap)),
                  SortedRolls(draws, from, DiceCount(s.attackers, AttackerDiceCap)), s),
          from + DiceCount(s.attackers, AttackerDiceCap) + DiceCount(s.defenders, DefenderDiceCap))
  }

  /** The unit counts after the given sorted rolls are paired off. */
  function Resolve(defenderRolls: seq<uint8>, attackerRolls: seq<uint8>, s: Armies): (r: Armies)
  {
    var n := Pairings(defenderRolls, attackerRolls);
    Armies(s.defenders - DefenderLosses(defenderRolls, attackerRolls, n),
           s.attackers - AttackerLosses(defenderRolls, attackerRolls, n))
  }


  /**
   * Resolving a set of rolls costs the two sides exactly one unit per compared
   * pair between them, and neither side more units than it has dice.
   */
  lemma ResolveCostsOneUnitPerPair(defenderRolls: seq<uint8>, attackerRolls: seq<uint8>, s: Armies)
    ensures var r := Resolve(defenderRolls, attackerRolls, s);
      && (s.defenders - r.defenders) + (s.attackers - r.attackers) == Pairings(defenderRolls, attackerRolls)
      && 0 <= s.defenders - r.defenders <= |defenderRolls|
      && 0 <= s.attackers - r.attackers <= |attackerRolls|
  {
    LossesSumToPairs(defenderRolls, attackerRolls, Pairings(defenderRolls, attackerRolls));
  }

  /** The number of dice pairs compared in a round between the two given unit counts. */
  function PairsInRound(s: Armies): (n: nat)
    ensures n <= DiceCount(s.defenders, DefenderDiceCap) && n <= DiceCount(s.attackers, AttackerDiceCap)
    ensures n == DiceCount(s.defenders, DefenderDiceCap) || n == DiceCount(s.attackers, AttackerDiceCap)
  {
    var attackerDice := DiceCount(s.attackers, AttackerDiceCap);
    var defenderDice := DiceCount(s.defenders, DefenderDiceCap);
    if defenderDice < attackerDice then defenderDice else attackerDice
  }

  /**
   * A round between two sides that both have units: each side loses at most the
   * dice it rolled and so never goes below zero, the units in play drop by
   * exactly the number of pairs (at least one), the two sides are never both
   * wiped out, and the round consumes one draw per die rolled.
   */
  lemma RoundProgress(draws: nat -> nat, from: nat, s: Armies)
    requires Fighting(s)
    ensures 0 <= Round(draws, from, s).armies.defenders <= s.defenders
    ensures 0 <= Round(draws, from, s).armies.attackers <= s.attackers
    ensures s.defenders - Round(draws, from, s).armies.defenders <= DiceCount(s.defenders, DefenderDiceCap)
    ensures s.attackers - Round(draws, from, s).armies.attackers <= DiceCount(s.attackers, AttackerDiceCap)
    ensures (s.defenders - Round(draws, from, s).armies.defenders) + (s.attackers - Round(draws, from, s).armies.attackers) == PairsInRound(s)
    ensures Round(draws, from, s).armies.defenders + Round(draws, from, s).armies.attackers < s.defenders + s.attackers
    ensures Round(draws, from, s).armies.defenders > 0 || Round(draws, from, s).armies.attackers > 0
    ensures Round(draws, from, s).next == from + DiceCount(s.attackers, AttackerDiceCap) + DiceCount(s.defenders, DefenderDiceCap)
  {
    var attackerRolls := SortedRolls(draws, from, DiceCount(s.attackers, AttackerDiceCap));
    var defenderRolls := SortedRolls(draws, from + DiceCount(s.attackers, AttackerDiceCap), DiceCount(s.defenders, DefenderDiceCap));
    var r := Resolve(defenderRolls, attackerRolls, s);
    assert Round(draws, from, s).armies == r;
    assert Pairings(defenderRolls, attackerRolls) == PairsInRound(s);
    ResolveCostsOneUnitPerPair(defenderRolls, attackerRolls, s);
  }
}

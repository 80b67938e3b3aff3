/**
 * The dice roller: the process-wide random stream and the routine that fills a
 * roll buffer with die faces in [1,6].
 */
module Dice {

  /** The element type of the roll buffers (`uint8_t`). */
  newtype uint8 = x: int | 0 <= x < 256

  /**
   * The process-wide pseudo-random stream behind `rand()`. The stream itself is
   * injected (`draws(k)` is the k-th value `rand()` returns, never negative) and
   * `used` counts how many values have been consumed so far.
   */
  class RandomSource {
    const draws: nat -> nat
    var used: nat

    constructor (draws: nat -> nat)
      ensures this.draws == draws && used == 0
    {
      this.draws := draws;
      used := 0;
    }

    /** One call of `rand()`: the next value of the stream. */
    method Rand() returns (r: nat)
      modifies this
      ensures r == draws(old(used)) && used == old(used) + 1
    {
      r := draws(used);
      used := used + 1;
    }
  }

  /** The face shown by a die whose raw draw is `r`: `1 + (r % 6)`. */
  function Face(r: nat): (f: uint8)
    ensures 1 <= f <= 6
  {
    (1 + r % 6) as uint8
  }

  /** The `k` faces rolled from the stream starting at position `from`, in the order they are drawn. */
  function Faces(draws: nat -> nat, from: nat, k: nat): (rolls: seq<uint8>)
    ensures |rolls| == k
  {
    if k == 0 then [] else Faces(draws, from, k - 1) + [Face(draws(from + k - 1))]
  }

  /** The `i`-th roll is the face of the `i`-th draw from `from` on, so every roll shows a face of the die. */
  lemma {:induction false} FacesFollowStream(draws: nat -> nat, from: nat, k: nat)
    ensures forall i :: 0 <= i < k ==> Faces(draws, from, k)[i] == Face(draws(from + i))
    ensures forall i :: 0 <= i < k ==> 1 <= Faces(draws, from, k)[i] <= 6
  {
    if k > 0 {
      FacesFollowStream(draws, from, k - 1);
      assert forall i :: 0 <= i < k - 1 ==> Faces(draws, from, k)[i] == Faces(draws, from, k - 1)[i];
    }
  }

  /**
   * `fill_vector_with_dice_rolls`: overwrites every slot of `v`, in index order,
   * with the face of the next draw of the stream.
   */
  method FillWithDiceRolls(v: array<uint8>, src: RandomSource)
    modifies v, src
    ensures src.used == old(src.used) + v.Length
    ensures v[..] == Faces(src.draws, old(src.used), v.Length)
    ensures forall i :: 0 <= i < v.Length ==> 1 <= v[i] <= 6
  {
    ghost var start := src.used;
    var i := 0;
    while i < v.Length
      invariant 0 <= i <= v.Length
      invariant src.used == start + i
      invariant v[..i] == Faces(src.draws, start, i)
    {
      var r := src.Rand();
      v[i] := Face(r);
      assert v[..i + 1] == v[..i] + [v[i]];
      i := i + 1;
    }
    assert v[..] == v[..v.Length];
    FacesFollowStream(src.draws, start, v.Length);
  }
}

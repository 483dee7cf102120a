/** The xoshiro256** generator (src/bft/prng/mod.rs): its state transition is an
    invertible linear map, and the long jump commutes with it. */
module Prng {

  /** A `u64`, as its bits, least significant first. */
  type Word = w: seq<bool> | |w| == 64 witness Zeros(64)

  function Zeros(n: nat): (z: seq<bool>)
    ensures |z| == n && forall i :: 0 <= i < n ==> !z[i]
  {
    if n == 0 then [] else Zeros(n - 1) + [false]
  }

  function Xor(x: Word, y: Word): Word {
    seq(64, i requires 0 <= i < 64 => x[i] != y[i])
  }

  function Shl(x: Word, k: nat): Word {
    seq(64, i requires 0 <= i < 64 => i >= k && x[i - k])
  }

  function Rotl(x: Word, k: nat): Word
    requires k < 64
  {
    seq(64, i requires 0 <= i < 64 => if i >= k then x[i - k] else x[i + 64 - k])
  }

  const ZERO_WORD: Word := Zeros(64)

  function ToNat(bits: seq<bool>): nat {
    if bits == [] then 0 else (if bits[0] then 1 else 0) + 2 * ToNat(bits[1..])
  }

  function BitOf(n: nat, i: nat): bool {
    if i == 0 then n % 2 == 1 else BitOf(n / 2, i - 1)
  }

  /** `wrapping_mul`. */
  function WrappingMul(x: Word, k: nat): Word {
    seq(64, i requires 0 <= i < 64 => BitOf(ToNat(x) * k, i))
  }

  datatype Words = Words(s0: Word, s1: Word, s2: Word, s3: Word)

  const ZERO: Words := Words(ZERO_WORD, ZERO_WORD, ZERO_WORD, ZERO_WORD)

  function Add(x: Words, y: Words): Words {
    Words(Xor(x.s0, y.s0), Xor(x.s1, y.s1), Xor(x.s2, y.s2), Xor(x.s3, y.s3))
  }

  /** The state transition of `next_state`. */
  function Advance(x: Words): Words {
    var t := Shl(x.s1, 17);
    var s2 := Xor(x.s2, x.s0);
    var s3 := Xor(x.s3, x.s1);
    Words(Xor(x.s0, s3), Xor(x.s1, s2), Xor(s2, t), Rotl(s3, 45))
  }

  /** The number `next_state` returns. */
  function Output(x: Words): Word {
    WrappingMul(Rotl(WrappingMul(x.s1, 5), 7), 9)
  }

  /** Solves y = x ^ (x << 17). */
  function Unshift(y: Word): Word {
    Xor(Xor(y, Shl(y, 17)), Xor(Shl(y, 34), Shl(y, 51)))
  }

  /** The inverse transition. */
  function Retreat(y: Words): Words {
    var s3 := Rotl(y.s3, 19);
    var s0 := Xor(y.s0, s3);
    var s1 := Unshift(Xor(y.s1, y.s2));
    Words(s0, s1, Xor(Xor(y.s1, s1), s0), Xor(s3, s1))
  }

  const LONG_JUMP: seq<nat> := [
    0x76e15d3efefdcbbf, 0xc5004e441c522fb3, 0x77710069854ee241, 0x39109bb02acbe635]

  /** Bit `i` of the 256-bit jump polynomial. */
  predicate JumpBit(i: nat)
    requires i < 256
  {
    BitOf(LONG_JUMP[i / 64], i % 64)
  }

  function AdvanceTimes(x: Words, n: nat): Words {
    if n == 0 then x else Advance(AdvanceTimes(x, n - 1))
  }

  /** The xor of the states reached at the set bits among the first `n`. */
  function Accumulate(x: Words, n: nat): Words
    requires n <= 256
  {
    if n == 0 then ZERO
    else
      var acc := Accumulate(x, n - 1);
      if JumpBit(n - 1) then Add(acc, AdvanceTimes(x, n - 1)) else acc
  }

  /** After `n` steps of a jump from `start`: the state, and the sum of selected states. */
  ghost predicate Reached(start: Words, n: nat, now: Words, acc: Words) {
    n <= 256 && now == AdvanceTimes(start, n) && acc == Accumulate(start, n)
  }

  function LongJump(x: Words): Words {
    Accumulate(x, 64 * |LONG_JUMP|)
  }

  // ---- the generator as an object ---------------------------------------------

  class State {
    const s: array<Word>

    constructor (seed: Words)
      ensures Valid() && fresh(s) && Value() == LongJump(seed)
    {
      s := new Word[4];
      new;
      s[0], s[1], s[2], s[3] := seed.s0, seed.s1, seed.s2, seed.s3;
      Jump();
    }

    ghost predicate Valid() {
      s.Length == 4
    }

    ghost function Value(): Words
      requires Valid()
      reads s
    {
      Words(s[0], s[1], s[2], s[3])
    }

    method NextState() returns (result: Word)
      requires Valid()
      modifies s
      ensures result == Output(old(Value())) && Value() == Advance(old(Value()))
    {
      result := WrappingMul(Rotl(WrappingMul(s[1], 5), 7), 9);
      var t := Shl(s[1], 17);
      s[2] := Xor(s[2], s[0]);
      s[3] := Xor(s[3], s[1]);
      s[1] := Xor(s[1], s[2]);
      s[0] := Xor(s[0], s[3]);
      s[2] := Xor(s[2], t);
      s[3] := Rotl(s[3], 45);
    }

    /** `long_jump`: the nested loops over four words of 64 bits. */
    method Jump()
      requires Valid()
      modifies s
      ensures Value() == LongJump(old(Value()))
    {
      var acc := JumpWords();
      s[0], s[1], s[2], s[3] := acc.s0, acc.s1, acc.s2, acc.s3;
    }

    method JumpWords() returns (acc: Words)
      requires Valid()
      modifies s
      ensures Reached(old(Value()), 64 * |LONG_JUMP|, Value(), acc)
    {
      acc := ZERO;
      var w := 0;
      ghost var start, n := Value(), 0;
      while w < |LONG_JUMP|
        invariant 0 <= w <= |LONG_JUMP| == 4
        invariant n == 64 * w && Reached(start, n, Value(), acc)
      {
        acc := JumpWord(w, acc, start, n);
        w, n := w + 1, n + 64;
      }
    }

    method JumpWord(w: nat, acc0: Words, ghost start: Words, ghost n: nat) returns (acc: Words)
      requires Valid() && w < 4 && n == 64 * w
      requires Reached(start, n, Value(), acc0)
      modifies s
      ensures Reached(start, n + 64, Value(), acc)
    {
      acc := acc0;
      var b := 0;
      while b < 64
        invariant 0 <= b <= 64
        invariant Reached(start, n + b, Value(), acc)
      {
        BitAt(w, b);
        acc := JumpStep(BitOf(LONG_JUMP[w], b), acc, start, n + b);
        b := b + 1;
      }
    }

    method JumpStep(bit: bool, acc0: Words, ghost start: Words, ghost n: nat) returns (acc: Words)
      requires Valid() && n < 256 && bit == JumpBit(n)
      requires Reached(start, n, Value(), acc0)
      modifies s
      ensures Reached(start, n + 1, Value(), acc)
    {
      StepUnfolds(start, n);
      acc := if bit then Add(acc0, Words(s[0], s[1], s[2], s[3])) else acc0;
      var _ := NextState();
    }
  }

  lemma BitAt(w: nat, b: nat)
    requires w < 4 && b < 64
    ensures JumpBit(64 * w + b) == BitOf(LONG_JUMP[w], b)
  {
    assert (64 * w + b) / 64 == w && (64 * w + b) % 64 == b;
  }

  lemma StepUnfolds(x: Words, n: nat)
    requires n < 256
    ensures AdvanceTimes(x, n + 1) == Advance(AdvanceTimes(x, n))
    ensures Accumulate(x, n + 1) ==
            if JumpBit(n) then Add(Accumulate(x, n), AdvanceTimes(x, n)) else Accumulate(x, n)
  {
  }

  // ---- linear algebra on words -------------------------------------------------------

  lemma XorLaws(a: Word, b: Word)
    ensures Xor(Xor(a, b), b) == a && Xor(a, b) == Xor(b, a)
  {
  }

  lemma XorShuffle(a: Word, b: Word, c: Word, d: Word)
    ensures Xor(Xor(a, b), Xor(c, d)) == Xor(Xor(a, c), Xor(b, d))
  {
  }

  lemma RotlInverse(x: Word)
    ensures Rotl(Rotl(x, 45), 19) == x && Rotl(Rotl(x, 19), 45) == x
  {
  }

  lemma UnshiftInverse(x: Word)
    ensures Unshift(Xor(x, Shl(x, 17))) == x
    ensures Xor(Unshift(x), Shl(Unshift(x), 17)) == x
  {
  }

  lemma ShiftLinear(x: Word, y: Word)
    ensures Shl(Xor(x, y), 17) == Xor(Shl(x, 17), Shl(y, 17))
    ensures Rotl(Xor(x, y), 45) == Xor(Rotl(x, 45), Rotl(y, 45))
  {
  }

  // ---- the state transition ------------------------------------------------------------

  /** No two states have the same successor, and every state has a predecessor. */
  lemma {:induction false} AdvanceIsInvertible(x: Words)
    ensures Retreat(Advance(x)) == x && Advance(Retreat(x)) == x
  {
    RetreatUndoes(x);
    AdvanceUndoes(x);
  }

  lemma {:induction false} RetreatUndoes(x: Words)
    ensures Retreat(Advance(x)) == x
  {
    var s2, s3 := Xor(x.s2, x.s0), Xor(x.s3, x.s1);
    RotlInverse(s3);
    XorLaws(x.s0, s3);
    assert Xor(Xor(x.s1, s2), Xor(s2, Shl(x.s1, 17))) == Xor(x.s1, Shl(x.s1, 17));
    UnshiftInverse(x.s1);
    XorLaws(s2, x.s1);
    assert Xor(Xor(x.s1, s2), x.s1) == s2;
    XorLaws(x.s2, x.s0);
    XorLaws(x.s3, x.s1);
  }

  lemma {:induction false} AdvanceUndoes(y: Words)
    ensures Advance(Retreat(y)) == y
  {
    var x := Retreat(y);
    var s3 := Rotl(y.s3, 19);
    RotlInverse(y.s3);
    XorLaws(s3, x.s1);
    XorLaws(y.s0, s3);
    XorLaws(Xor(y.s1, x.s1), x.s0);
    XorLaws(y.s1, x.s1);
    UnshiftInverse(Xor(y.s1, y.s2));
    assert Xor(Xor(y.s1, x.s1), Shl(x.s1, 17)) == Xor(y.s1, Xor(x.s1, Shl(x.s1, 17)));
    assert Xor(y.s1, Xor(y.s1, y.s2)) == y.s2;
    assert Xor(x.s1, Xor(y.s1, x.s1)) == y.s1;
  }

  /** The transition is linear over GF(2). */
  lemma {:induction false} AdvanceIsLinear(x: Words, y: Words)
    ensures Advance(Add(x, y)) == Add(Advance(x), Advance(y))
  {
    XorShuffle(x.s2, y.s2, x.s0, y.s0);
    XorShuffle(x.s3, y.s3, x.s1, y.s1);
    var x2, y2, x3, y3 := Xor(x.s2, x.s0), Xor(y.s2, y.s0), Xor(x.s3, x.s1), Xor(y.s3, y.s1);
    XorShuffle(x.s0, y.s0, x3, y3);
    XorShuffle(x.s1, y.s1, x2, y2);
    ShiftLinear(x.s1, y.s1);
    XorShuffle(x2, y2, Shl(x.s1, 17), Shl(y.s1, 17));
    ShiftLinear(x3, y3);
  }

  lemma AdvanceOfZero()
    ensures Advance(ZERO) == ZERO
  {
    var a := Advance(ZERO);
    assert a.s0 == ZERO_WORD && a.s1 == ZERO_WORD && a.s2 == ZERO_WORD && a.s3 == ZERO_WORD;
  }

  /** A non-zero state stays non-zero. */
  lemma {:induction false} AdvanceKeepsNonZero(x: Words)
    ensures Advance(x) == ZERO <==> x == ZERO
  {
    AdvanceOfZero();
    AdvanceIsInvertible(x);
    AdvanceIsInvertible(ZERO);
  }

  lemma {:induction false} AddShuffle(a: Words, b: Words, c: Words, d: Words)
    ensures Add(Add(a, b), Add(c, d)) == Add(Add(a, c), Add(b, d))
  {
    XorShuffle(a.s0, b.s0, c.s0, d.s0);
    XorShuffle(a.s1, b.s1, c.s1, d.s1);
    XorShuffle(a.s2, b.s2, c.s2, d.s2);
    XorShuffle(a.s3, b.s3, c.s3, d.s3);
  }

  lemma {:induction false} AdvanceTimesIsLinear(x: Words, y: Words, n: nat)
    ensures AdvanceTimes(Add(x, y), n) == Add(AdvanceTimes(x, n), AdvanceTimes(y, n))
  {
    if n > 0 {
      AdvanceTimesIsLinear(x, y, n - 1);
      AdvanceIsLinear(AdvanceTimes(x, n - 1), AdvanceTimes(y, n - 1));
    }
  }

  lemma {:induction false} AdvanceCommutes(x: Words, n: nat)
    ensures AdvanceTimes(Advance(x), n) == Advance(AdvanceTimes(x, n))
  {
    if n > 0 { AdvanceCommutes(x, n - 1); }
  }

  lemma AddZero()
    ensures Add(ZERO, ZERO) == ZERO
  {
    assert Xor(ZERO_WORD, ZERO_WORD) == ZERO_WORD;
  }

  lemma {:induction false} AccumulateIsLinear(x: Words, y: Words, n: nat)
    requires n <= 256
    ensures Accumulate(Add(x, y), n) == Add(Accumulate(x, n), Accumulate(y, n))
  {
    if n == 0 {
      AddZero();
    } else {
      AccumulateIsLinear(x, y, n - 1);
      AdvanceTimesIsLinear(x, y, n - 1);
      AddShuffle(Accumulate(x, n - 1), Accumulate(y, n - 1), AdvanceTimes(x, n - 1), AdvanceTimes(y, n - 1));
    }
  }

  lemma {:induction false} AccumulateCommutes(x: Words, n: nat)
    requires n <= 256
    ensures Accumulate(Advance(x), n) == Advance(Accumulate(x, n))
  {
    if n == 0 {
      AdvanceOfZero();
    } else {
      AccumulateCommutes(x, n - 1);
      AdvanceCommutes(x, n - 1);
      AdvanceIsLinear(Accumulate(x, n - 1), AdvanceTimes(x, n - 1));
    }
  }

  /** The long jump is linear and commutes with the transition, so jumping before or
      after drawing numbers leads to the same stream. */
  lemma {:induction false} LongJumpCommutes(x: Words, y: Words, n: nat)
    ensures LongJump(Add(x, y)) == Add(LongJump(x), LongJump(y))
    ensures LongJump(AdvanceTimes(x, n)) == AdvanceTimes(LongJump(x), n)
  {
    AccumulateIsLinear(x, y, 64 * |LONG_JUMP|);
    if n > 0 {
      LongJumpCommutes(x, y, n - 1);
      AccumulateCommutes(AdvanceTimes(x, n - 1), 64 * |LONG_JUMP|);
    }
  }
}

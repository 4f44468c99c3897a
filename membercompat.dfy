/** The bit operations `StructSizeTracker` applies to `usize` values, on unsigned numbers:
    `count_ones`, `&`, and `!` on a 64-bit word, with what they compute for a power of
    two and the mask below it. */
module UsizeBits {
  import opened Ints

  function Pow2(k: nat): (p: nat)
    ensures p >= 1
  {
    if k == 0 then 1 else 2 * Pow2(k - 1)
  }

  ghost predicate IsPowerOfTwo(a: nat) {
    exists k: nat :: a == Pow2(k)
  }

  /** `count_ones`: the number of 1 bits. */
  function CountOnes(x: nat): nat {
    if x == 0 then 0 else x % 2 + CountOnes(x / 2)
  }

  /** `x & y`, bit by bit from the lowest. */
  function And(x: nat, y: nat): nat {
    if x == 0 || y == 0 then 0
    else 2 * And(x / 2, y / 2) + (if x % 2 == 1 && y % 2 == 1 then 1 else 0)
  }

  /** `!y` on an n-bit word, bit by bit from the lowest. */
  function Not(y: nat, n: nat): nat {
    if n == 0 then 0 else 2 * Not(y / 2, n - 1) + (1 - y % 2)
  }

  /** `!y` on a `usize`. */
  function Not64(y: u64): nat {
    Not(y, 64)
  }

  lemma {:induction false} CountOnesZero(x: nat)
    ensures CountOnes(x) == 0 <==> x == 0
  {
    if x != 0 && x % 2 == 0 {
      CountOnesZero(x / 2);
    }
  }

  /** A number has exactly one 1 bit exactly when it is a power of two. */
  lemma {:induction false} OneBitIsPowerOfTwo(a: nat)
    ensures CountOnes(a) == 1 <==> IsPowerOfTwo(a)
  {
    if CountOnes(a) == 1 {
      if a % 2 == 1 {
        CountOnesZero(a / 2);
        assert a == Pow2(0);
      } else {
        OneBitIsPowerOfTwo(a / 2);
        var k: nat :| a / 2 == Pow2(k);
        assert a == Pow2(k + 1);
      }
    }
    if IsPowerOfTwo(a) {
      var k: nat :| a == Pow2(k);
      PowerOfTwoHasOneBit(k);
    }
  }

  lemma {:induction false} PowerOfTwoHasOneBit(k: nat)
    ensures CountOnes(Pow2(k)) == 1
  {
    if k > 0 {
      PowerOfTwoHasOneBit(k - 1);
      assert Pow2(k) / 2 == Pow2(k - 1);
    }
  }

  lemma {:induction false} Pow2Monotone(j: nat, k: nat)
    requires j <= k
    ensures Pow2(j) <= Pow2(k)
  {
    if j < k {
      Pow2Monotone(j, k - 1);
    }
  }

  lemma Pow2Of64()
    ensures Pow2(64) == TWO_64
  {
    assert Pow2(1) == 2;
    assert Pow2(2) == 4;
    Pow2Split(2, 2);
    assert Pow2(4) == 16;
    Pow2Split(4, 4);
    assert Pow2(8) == 256;
    Pow2Split(8, 8);
    assert Pow2(16) == TWO_16;
    Pow2Split(16, 16);
    assert Pow2(32) == TWO_32;
    Pow2Split(32, 32);
  }

  lemma {:induction false} Pow2Split(j: nat, k: nat)
    ensures Pow2(j + k) == Pow2(j) * Pow2(k)
  {
    if k > 0 {
      Pow2Split(j, k - 1);
      MulSucc(Pow2(j), Pow2(k - 1));
      assert Pow2(j) * Pow2(k) == Pow2(j) * (2 * Pow2(k - 1));
    }
  }

  /** `d * (q + 1)` is `d * q + d`. */
  lemma MulSucc(d: nat, q: nat)
    ensures d * (q + 1) == d * q + d
  {
  }

  /** A power of two in a 64-bit word is 2^k with k < 64. */
  lemma PowerOfTwoExponent(a: u64) returns (k: nat)
    requires IsPowerOfTwo(a)
    ensures k < 64 && a == Pow2(k)
  {
    k :| a == Pow2(k);
    if k >= 64 {
      Pow2Monotone(64, k);
      Pow2Of64();
    }
  }

  /** Division with remainder is unique. */
  lemma ModUnique(x: nat, d: nat, q: nat, r: nat)
    requires d > 0 && x == d * q + r && r < d
    ensures x % d == r && x / d == q
  {
    var q0, r0 := x / d, x % d;
    assert x == d * q0 + r0;
    if q0 < q {
      MulMonotone(d, q0 + 1, q);
    } else if q < q0 {
      MulMonotone(d, q + 1, q0);
    }
  }

  lemma MulMonotone(d: nat, i: nat, j: nat)
    requires i <= j
    ensures d * i <= d * j
  {
  }

  /** The remainder by `2 * p` from the remainder of the halved number by `p`. */
  lemma ModDouble(x: nat, p: nat)
    requires p > 0
    ensures x % (2 * p) == 2 * ((x / 2) % p) + x % 2
  {
    var q, r := (x / 2) / p, (x / 2) % p;
    assert x / 2 == p * q + r;
    assert x == (2 * p) * q + (2 * r + x % 2);
    ModUnique(x, 2 * p, q, 2 * r + x % 2);
  }

  /** `x & (2^k - 1)` keeps the low k bits: the remainder by 2^k. */
  lemma {:induction false} AndLowMask(x: nat, k: nat)
    ensures And(x, Pow2(k) - 1) == x % Pow2(k)
  {
    if k == 0 {
      assert Pow2(k) - 1 == 0;
    } else if x == 0 {
      assert And(x, Pow2(k) - 1) == 0;
    } else {
      AndLowMask(x / 2, k - 1);
      LowMaskStep(x, k);
    }
  }

  /** One bit of `AndLowMask`: the mask's lowest bit keeps `x`'s, and the rest of the mask
      is the mask one bit shorter. */
  lemma LowMaskStep(x: nat, k: nat)
    requires k > 0 && x != 0
    requires And(x / 2, Pow2(k - 1) - 1) == (x / 2) % Pow2(k - 1)
    ensures And(x, Pow2(k) - 1) == x % Pow2(k)
  {
    var m := Pow2(k) - 1;
    assert m % 2 == 1 && m / 2 == Pow2(k - 1) - 1;
    AndStep(x, m);
    ModDouble(x, Pow2(k - 1));
  }

  /** `x & !y`, with `!` on n bits, clears from `x` the bits `y` has: for `x` below 2^n
      it is `x` less `x & y`. */
  lemma {:induction false} AndNot(x: nat, y: nat, n: nat)
    requires x < Pow2(n)
    ensures And(x, Not(y, n)) == x - And(x, y)
  {
    if n > 0 && x != 0 {
      assert x / 2 < Pow2(n - 1);
      AndNot(x / 2, y / 2, n - 1);
      NotStep(y, n);
      AndStep(x, Not(y, n));
      AndStep(x, y);
    }
  }

  lemma AndStep(x: nat, y: nat)
    requires x != 0
    ensures And(x, y) == 2 * And(x / 2, y / 2) + (if x % 2 == 1 && y % 2 == 1 then 1 else 0)
  {
  }

  lemma NotStep(y: nat, n: nat)
    requires n > 0
    ensures Not(y, n) / 2 == Not(y / 2, n - 1) && Not(y, n) % 2 == 1 - y % 2
  {
  }

  /** On n bits, `!y` is `2^n - 1 - y`. */
  lemma {:induction false} NotValue(y: nat, n: nat)
    requires y < Pow2(n)
    ensures Not(y, n) == Pow2(n) - 1 - y
  {
    if n > 0 {
      assert y / 2 < Pow2(n - 1);
      NotValue(y / 2, n - 1);
    }
  }

  /** For a power of two `a` in a 64-bit word: `x & (a - 1)` is `x mod a`, and
      `x & !(a - 1)` clears those bits, leaving `x - x mod a`. */
  lemma AlignmentMasks(x: u64, a: u64)
    requires IsPowerOfTwo(a)
    ensures And(x, a - 1) == x % a
    ensures And(x, Not64(a - 1)) == x - x % a
  {
    var k := PowerOfTwoExponent(a);
    AndLowMask(x, k);
    Pow2Of64();
    AndNot(x, a - 1, 64);
  }
}

/** `StructSizeTracker` (`dcommon::helpers::member_compat`): the running size and largest
    alignment of a `repr(C)` struct laid out member by member, used to check that a
    wrapper type has the layout of the struct it stands for. Arithmetic is on `usize`
    (64 bits); an addition that overflows panics, as it does in the debug builds that run
    these layout checks. */
module MemberCompat {
  import opened Ints
  import opened UsizeBits

  /** The least multiple of `a` that is at least `size`. */
  function AlignUp(size: nat, a: nat): nat
    requires a > 0
  {
    if size % a == 0 then size else size + (a - size % a)
  }

  function Max(x: nat, y: nat): nat {
    if x >= y then x else y
  }

  /** `AlignUp` is a multiple of `a`, at least `size`, below `size + a`, no larger than any
      multiple of `a` that is at least `size`, and equal to `size` when `size` is already
      a multiple. */
  lemma AlignUpIsLeastMultiple(size: nat, a: nat, m: nat)
    requires a > 0
    ensures AlignUp(size, a) % a == 0
    ensures size <= AlignUp(size, a) < size + a
    ensures size % a == 0 ==> AlignUp(size, a) == size
    ensures m % a == 0 && m >= size ==> m >= AlignUp(size, a)
  {
    var q, r := size / a, size % a;
    assert size == a * q + r;
    if r != 0 {
      assert AlignUp(size, a) == a * (q + 1);
      ModUnique(AlignUp(size, a), a, q + 1, 0);
      if m % a == 0 && m >= size {
        var j := m / a;
        assert m == a * j;
        if j <= q {
          MulMonotone(a, j, q);
        } else {
          MulMonotone(a, q + 1, j);
        }
      }
    }
  }

  /** When `realign(a)` panics: `a` does not have exactly one bit set, or the size is not
      aligned and `size + a` overflows. */
  predicate RealignPanics(size: u64, a: u64) {
    CountOnes(a) != 1 || (a > 0 && size % a != 0 && size + a >= TWO_64)
  }

  /** `realign(a)` panics exactly when `a` is not a power of two or the aligned size does
      not fit in a `usize`. */
  lemma {:induction false} RealignPanicsExactly(size: u64, a: u64)
    ensures RealignPanics(size, a) <==>
      !IsPowerOfTwo(a) || AlignUp(size, a) >= TWO_64
  {
    OneBitIsPowerOfTwo(a);
    if IsPowerOfTwo(a) {
      var k := PowerOfTwoExponent(a);
      Pow2Of64();
      Pow2Monotone(k, 64);
      var top := TWO_64 - a;
      TopIsMultiple(k);
      AlignUpIsLeastMultiple(size, a, top);
      AlignUpIsLeastMultiple(size, a, TWO_64);
      if size % a != 0 && size + a >= TWO_64 {
        assert size >= top;
        assert size != top by {
          assert top % a == 0;
        }
        assert AlignUp(size, a) == TWO_64 by {
          AlignUpIsLeastMultiple(size, a, TWO_64);
          assert AlignUp(size, a) > top;
          AboveMultiple(AlignUp(size, a), top, a);
        }
      }
    }
  }

  /** 2^64 and 2^64 - 2^k are multiples of 2^k for k < 64. */
  lemma TopIsMultiple(k: nat)
    requires k < 64
    ensures TWO_64 % Pow2(k) == 0 && (TWO_64 - Pow2(k)) % Pow2(k) == 0
  {
    Pow2Monotone(k, 64);
    PowersAreMultiples(k, 64);
    Pow2Of64();
  }

  /** 2^n and 2^n - 2^k are multiples of 2^k for k <= n. */
  lemma PowersAreMultiples(k: nat, n: nat)
    requires k <= n
    ensures Pow2(k) <= Pow2(n)
    ensures Pow2(n) % Pow2(k) == 0 && (Pow2(n) - Pow2(k)) % Pow2(k) == 0
  {
    var a, q := Pow2(k), Pow2(n - k);
    Pow2Split(k, n - k);
    assert Pow2(n) == a * q;
    MulSucc(a, q - 1);
    MultipleMinusOne(Pow2(n), a, q);
  }

  lemma MultipleMinusOne(m: nat, a: nat, q: nat)
    requires a > 0 && q > 0 && m == a * q
    ensures m % a == 0 && (m - a) % a == 0
  {
    MulSucc(a, q - 1);
    ModUnique(m, a, q, 0);
    ModUnique(m - a, a, q - 1, 0);
  }

  /** The next multiple of `a` above a multiple `top` is at least `top + a`. */
  lemma AboveMultiple(m: nat, top: nat, a: nat)
    requires a > 0 && m % a == 0 && top % a == 0 && m > top
    ensures m >= top + a
  {
    var i, j := m / a, top / a;
    assert m == a * i && top == a * j;
    if i <= j {
      MulMonotone(a, i, j);
    } else {
      MulMonotone(a, j + 1, i);
    }
  }

  /** The arithmetic of `realign`'s body: the mask test is an alignment test, and adding
      `a` then clearing the low bits rounds up. */
  lemma RealignArithmetic(size: u64, a: u64)
    requires IsPowerOfTwo(a)
    ensures (And(size, a - 1) != 0) <==> size % a != 0
    ensures size % a != 0 && size + a < TWO_64 ==>
      And(size + a, Not64(a - 1)) == AlignUp(size, a)
  {
    AlignmentMasks(size, a);
    if size % a != 0 && size + a < TWO_64 {
      AlignmentMasks(size + a, a);
      AddDivisorKeepsMod(size, a);
    }
  }

  /** Adding the divisor leaves the remainder alone. */
  lemma AddDivisorKeepsMod(x: nat, a: nat)
    requires a > 0
    ensures (x + a) % a == x % a
  {
    var q, r := x / a, x % a;
    assert x == a * q + r;
    MulSucc(a, q);
    assert x + a == a * (q + 1) + r;
    ModUnique(x + a, a, q + 1, r);
  }

  class StructSizeTracker {
    var size: u64
    var align: u64

    /** The largest alignment seen is 0 (no member yet) or a power of two. */
    ghost predicate Valid()
      reads this
    {
      align == 0 || IsPowerOfTwo(align)
    }

    /** `new`: an empty struct, size 0 and alignment 0. */
    constructor ()
      ensures size == 0 && align == 0 && Valid()
    {
      size := 0;
      align := 0;
    }

    /** `realign(a)`: assert that `a` has one bit set, then round the size up to a
        multiple of `a` by adding `a` and clearing the bits below it. */
    method Realign(a: u64) returns (panics: bool)
      modifies this
      ensures panics <==> RealignPanics(old(size), a)
      ensures panics ==> size == old(size)
      ensures !panics ==> IsPowerOfTwo(a) && size == AlignUp(old(size), a)
      ensures size >= old(size)
      ensures align == old(align)
    {
      OneBitIsPowerOfTwo(a);
      if CountOnes(a) != 1 {
        return true;
      }
      RealignArithmetic(size, a);
      if And(size, a - 1) != 0 {
        if size + a >= TWO_64 {
          return true;
        }
        size := size + a;
        size := And(size, Not64(a - 1));
      }
      AlignUpIsLeastMultiple(old(size), a, 0);
      return false;
    }

    /** `incr(s, a)`: realign to `a`, add the member's size `s`, and raise the alignment to
        `a` if it is larger. */
    method Incr(s: u64, a: u64) returns (panics: bool)
      requires Valid()
      modifies this
      ensures panics <==>
        RealignPanics(old(size), a) || (IsPowerOfTwo(a) && AlignUp(old(size), a) + s >= TWO_64)
      ensures panics && RealignPanics(old(size), a) ==> size == old(size) && align == old(align)
      ensures panics && !RealignPanics(old(size), a) ==>
        size == AlignUp(old(size), a) && align == old(align)
      ensures !panics ==>
        size == AlignUp(old(size), a) + s && align == Max(old(align), a) && CountOnes(align) == 1
      ensures size >= old(size)
      ensures Valid()
    {
      panics := Realign(a);
      if panics {
        return;
      }
      if size + s >= TWO_64 {
        return true;
      }
      size := size + s;
      align := Max(align, a);
      OneBitIsPowerOfTwo(align);
    }

    /** `finalize`: realign to the largest alignment seen. */
    method Finalize() returns (panics: bool)
      modifies this
      ensures panics <==> RealignPanics(old(size), old(align))
      ensures panics ==> size == old(size)
      ensures !panics ==> align > 0 && size == AlignUp(old(size), old(align)) && size % align == 0
      ensures size >= old(size)
      ensures align == old(align)
    {
      panics := Realign(align);
      if !panics {
        AlignUpIsLeastMultiple(old(size), align, 0);
      }
    }
  }

  /** `finalize` on a tracker that never ran `incr` panics: `count_ones(0)` is 0. */
  lemma FinalizeWithoutMembersPanics(size: u64)
    ensures RealignPanics(size, 0)
  {
  }

  /** Once a member has been added the largest alignment is a power of two, so
      `finalize` can only panic on overflow. */
  lemma FinalizeAfterMembers(size: u64, align: u64)
    requires CountOnes(align) == 1
    ensures RealignPanics(size, align) <==> AlignUp(size, align) >= TWO_64
  {
    RealignPanicsExactly(size, align);
    OneBitIsPowerOfTwo(align);
  }
}

/** Sizes in DelegateMQ/extras/allocator/xallocator.cpp: the bit trick that rounds a request up to a
    power of two, on a 64-bit size_t. */
module BlockSize {

  const WORD: nat := 0x1_0000_0000_0000_0000   // 2^64
  const HALF: nat := 0x8000_0000_0000_0000     // 2^63
  const BLOCK_HEADER_SIZE: nat := 16

  type Size = n: int | 0 <= n < 0x1_0000_0000_0000_0000

  // ---------- Bits ----------

  function Pow2(n: nat): (p: nat)
    ensures p > 0
  {
    if n == 0 then 1 else 2 * Pow2(n - 1)
  }

  /** Bitwise or. */
  function Or(a: nat, b: nat): nat {
    if a == 0 && b == 0 then 0
    else 2 * Or(a / 2, b / 2) + if a % 2 == 1 || b % 2 == 1 then 1 else 0
  }

  /** Whether the j-th bit is set. */
  predicate Bit(k: nat, j: nat)
    decreases j
  {
    if j == 0 then k % 2 == 1 else Bit(k / 2, j - 1)
  }

  function Shift(k: nat, i: nat): nat
    decreases i
  {
    if i == 0 then k else Shift(k / 2, i - 1)
  }

  lemma OrHalves(a: nat, b: nat)
    ensures Or(a, b) / 2 == Or(a / 2, b / 2)
    ensures Or(a, b) % 2 == 1 <==> a % 2 == 1 || b % 2 == 1
  {}

  lemma {:induction false} BitOfOr(a: nat, b: nat, j: nat)
    ensures Bit(Or(a, b), j) <==> Bit(a, j) || Bit(b, j)
    decreases j
  {
    OrHalves(a, b);
    hide Or;
    if j > 0 {
      BitOfOr(a / 2, b / 2, j - 1);
    }
  }

  lemma {:induction false} NoBits(k: nat, j: nat)
    requires k < Pow2(j)
    ensures !Bit(k, j)
    decreases j
  {
    if j > 0 {
      NoBits(k / 2, j - 1);
    }
  }

  lemma {:induction false} BitOfShift(k: nat, i: nat, j: nat)
    ensures Bit(Shift(k, i), j) <==> Bit(k, i + j)
    decreases i
  {
    if i > 0 {
      BitOfShift(k / 2, i - 1, j);
    }
  }

  /** A number whose bits are all set below m and clear from m on. */
  lemma {:induction false} AllOnes(k: nat, m: nat)
    requires forall j: nat :: Bit(k, j) <==> j < m
    ensures k == Pow2(m) - 1
    decreases m
  {
    if m == 0 {
      if k > 0 {
        var n := TopBit(k);
      }
    } else {
      assert Bit(k, 0);
      forall j: nat
        ensures Bit(k / 2, j) <==> j < m - 1
      {
        assert Bit(k, j + 1) <==> Bit(k / 2, j);
      }
      AllOnes(k / 2, m - 1);
    }
  }

  /** The highest bit that is set. */
  lemma {:induction false} TopBit(k: nat) returns (n: nat)
    requires k > 0
    ensures Bit(k, n) && Pow2(n) <= k < Pow2(n + 1)
    ensures forall j: nat | j > n :: !Bit(k, j)
  {
    if k == 1 {
      n := 0;
      forall j: nat | j > 0
        ensures !Bit(k, j)
      {
        assert Bit(k, j) == Bit(0, j - 1);
        NoBits(0, j - 1);
      }
    } else {
      var below := TopBit(k / 2);
      n := below + 1;
      forall j: nat | j > n
        ensures !Bit(k, j)
      {
        assert Bit(k, j) == Bit(k / 2, j - 1);
      }
    }
  }

  lemma {:induction false} Grows(a: nat, b: nat)
    requires a <= b
    ensures Pow2(a) <= Pow2(b)
    decreases b
  {
    if a < b {
      Grows(a, b - 1);
    }
  }

  // ---------- Rounding up ----------

  /** The least power of two not below k. */
  function RoundUp(k: nat): nat {
    if k <= 1 then 1 else 2 * RoundUp((k + 1) / 2)
  }

  lemma {:induction false} RoundUpIsLeast(k: nat)
    ensures k <= RoundUp(k)
    ensures exists e :: RoundUp(k) == Pow2(e)
    ensures forall e: nat | k <= Pow2(e) :: RoundUp(k) <= Pow2(e)
  {
    if k <= 1 {
      assert Pow2(0) == 1;
    } else {
      var h := (k + 1) / 2;
      RoundUpIsLeast(h);
      var e: nat :| RoundUp(h) == Pow2(e);
      assert Pow2(e + 1) == RoundUp(k);
      forall f: nat | k <= Pow2(f)
        ensures RoundUp(k) <= Pow2(f)
      {
        assert f > 0 && h <= Pow2(f - 1);
      }
    }
  }

  /** x is x0 with every set bit copied to the w - 1 places below it. */
  ghost predicate Smeared(x: nat, x0: nat, w: nat) {
    forall j: nat :: Bit(x, j) <==> exists t: nat :: j <= t < j + w && Bit(x0, t)
  }

  lemma SmearMore(x: nat, x0: nat, w: nat)
    requires Smeared(x, x0, w)
    ensures Smeared(Or(x, Shift(x, w)), x0, 2 * w)
  {
    var y := Or(x, Shift(x, w));
    forall j: nat
      ensures Bit(y, j) <==> exists t: nat :: j <= t < j + 2 * w && Bit(x0, t)
    {
      BitOfOr(x, Shift(x, w), j);
      BitOfShift(x, w, j);
      assert Bit(x, j) <==> exists t: nat :: j <= t < j + w && Bit(x0, t);
      assert Bit(x, w + j) <==> exists t: nat :: w + j <= t < w + j + w && Bit(x0, t);
    }
  }

  lemma SmearedIsOnes(x: nat, x0: nat, w: nat, m: nat)
    requires Smeared(x, x0, w) && m <= w
    requires m == 0 ==> x0 == 0
    requires m > 0 ==> Bit(x0, m - 1) && forall j: nat | j >= m :: !Bit(x0, j)
    ensures x == Pow2(m) - 1
  {
    hide Pow2;
    forall j: nat
      ensures Bit(x, j) <==> j < m
    {
      if m == 0 {
        ZeroBits(x0);
      }
    }
    AllOnes(x, m);
  }

  lemma ZeroBits(k: nat)
    requires k == 0
    ensures forall j: nat :: !Bit(k, j)
  {
    forall j: nat
      ensures !Bit(k, j)
    {
      NoBits(k, j);
    }
  }

  /** A power of two with k in the upper half below it. */
  lemma RoundUpFrom(k: nat, m: nat)
    requires k <= Pow2(m) && (m > 0 ==> Pow2(m - 1) < k)
    ensures RoundUp(k) == Pow2(m)
  {
    hide RoundUp, Pow2;
    RoundUpIsLeast(k);
    var e: nat :| RoundUp(k) == Pow2(e);
    if e < m {
      Grows(e, m - 1);
    } else {
      Grows(m, e);
    }
  }

  lemma SmearedAll(x: nat, x0: nat, w: nat)
    requires Smeared(x, x0, w) && x0 < Pow2(w)
    ensures x + 1 == RoundUp(x0 + 1)
  {
    hide Smeared, RoundUp;
    if x0 == 0 {
      SmearedIsOnes(x, x0, w, 0);
      RoundUpFrom(1, 0);
    } else {
      var n := TopBit(x0);
      if n >= w {
        Grows(w, n);
      }
      SmearedIsOnes(x, x0, w, n + 1);
      RoundUpFrom(x0 + 1, n + 1);
    }
  }

  lemma {:induction false} Pow2Sum(a: nat, b: nat)
    ensures Pow2(a + b) == Pow2(a) * Pow2(b)
  {
    if a > 0 {
      Pow2Sum(a - 1, b);
      assert Pow2(a + b) == 2 * Pow2(a - 1 + b);
      assert 2 * (Pow2(a - 1) * Pow2(b)) == Pow2(a) * Pow2(b);
    }
  }

  lemma WordSizes()
    ensures Pow2(63) == HALF && Pow2(64) == WORD
  {
    assert Pow2(1) == 2 && Pow2(2) == 4;
    Pow2Sum(2, 2);
    Pow2Sum(4, 4);
    Pow2Sum(8, 8);
    Pow2Sum(16, 16);
    Pow2Sum(32, 32);
  }

  /** Rounding stays within a word exactly up to 2^63. */
  lemma RoundUpFits(k: nat)
    requires 0 < k <= WORD
    ensures if k <= HALF then RoundUp(k) <= HALF else RoundUp(k) == WORD
  {
    WordSizes();
    RoundUpIsLeast(k);
    var e: nat :| RoundUp(k) == Pow2(e);
    if k > HALF {
      if e < 64 {
        Grows(e, 63);
      }
      Grows(64, e);
    }
  }

  method NextHigher(k: Size) returns (r: Size)
    ensures r as int == if 0 < k <= HALF then RoundUp(k) else 0
  {
    var x: nat := if k == 0 then WORD - 1 else k - 1;
    ghost var x0 := x;
    var i := 1;
    WordSizes();
    while i < 64
      invariant Smeared(x, x0, i)
      invariant i == 1 || i == 2 || i == 4 || i == 8 || i == 16 || i == 32 || i == 64
      decreases 64 - i
    {
      SmearMore(x, x0, i);
      x := Or(x, Shift(x, i));
      i := 2 * i;
    }
    SmearedAll(x, x0, 64);
    RoundUpFits(x0 + 1);
    r := (x + 1) % WORD;
  }

  /** The block size that xallocator_get_allocator asks for. */
  function SizeOfBlock(size: Size): Size {
    var request := (size + BLOCK_HEADER_SIZE) % WORD;
    if 0 < request <= HALF then RoundUpFits(request); RoundUp(request) else 0
  }

  method BlockSizeFor(size: Size) returns (blockSize: Size)
    ensures blockSize == SizeOfBlock(size)
  {
    blockSize := NextHigher((size + BLOCK_HEADER_SIZE) % WORD);
  }

  /** The block holds request and header exactly for requests up to 2^63 - 16, and then it is the least
      power of two that does; beyond, the rounding or the addition overflows. */
  lemma HoldsRequestIff(size: Size)
    ensures SizeOfBlock(size) >= size + BLOCK_HEADER_SIZE <==> size + BLOCK_HEADER_SIZE <= HALF
    ensures size + BLOCK_HEADER_SIZE <= HALF ==>
              && (exists e :: SizeOfBlock(size) == Pow2(e))
              && forall e: nat | size + BLOCK_HEADER_SIZE <= Pow2(e) :: SizeOfBlock(size) <= Pow2(e)
  {
    hide RoundUp, Pow2;
    var request := (size + BLOCK_HEADER_SIZE) % WORD;
    if size + BLOCK_HEADER_SIZE <= HALF {
      assert SizeOfBlock(size) == RoundUp(size + BLOCK_HEADER_SIZE);
      RoundUpIsLeast(size + BLOCK_HEADER_SIZE);
    } else if size + BLOCK_HEADER_SIZE >= WORD {
      assert request == size + BLOCK_HEADER_SIZE - WORD;
      RoundUpSmall(request);
    }
  }

  lemma RoundUpSmall(k: nat)
    requires k <= 16
    ensures RoundUp(k) <= 16
  {
    assert Pow2(4) == 16;
    RoundUpIsLeast(k);
  }
}

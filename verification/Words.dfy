/** 64-bit words as numbers, with the operators of the C code defined bit by bit. */
module Words {

  /** uint64_t */
  type Word = x: int | 0 <= x < 0x1_0000_0000_0000_0000

  const WORD_SIZE: nat := 0x1_0000_0000_0000_0000

  /** `x & y` */
  function And(x: nat, y: nat): (r: nat)
    ensures r <= x
  {
    if x == 0 || y == 0 then 0 else (x % 2) * (y % 2) + 2 * And(x / 2, y / 2)
  }

  /** `~x` */
  function Not(x: Word): Word {
    WORD_SIZE - 1 - x
  }

  /** `x << k`, one bit at a time; the bits that leave the word are lost */
  function Shl(x: Word, k: nat): Word
    decreases k
  {
    if k == 0 then x else Shl(2 * x % WORD_SIZE, k - 1)
  }

  /** `x >> k`, one bit at a time */
  function Shr(x: nat, k: nat): (r: nat)
    ensures r <= x
    decreases k
  {
    if k == 0 then x else Shr(x / 2, k - 1)
  }

  /** `x + y` and `x - y`, wrapping */
  function Plus(x: Word, y: Word): Word {
    (x + y) % WORD_SIZE
  }

  function Minus(x: Word, y: Word): Word {
    (x - y) % WORD_SIZE
  }

  // ---- Masks ----

  /** The number with the `n` lowest bits set. */
  function Ones(n: nat): nat {
    if n == 0 then 0 else 2 * Ones(n - 1) + 1
  }

  /** `x` followed by `k` zero bits, in any width. */
  function Up(x: nat, k: nat): nat
    decreases k
  {
    if k == 0 then x else 2 * Up(x, k - 1)
  }

  /** The number made of the `n` lowest bits of `x`. */
  function Lowest(x: nat, n: nat): nat
    decreases n
  {
    if n == 0 then 0 else x % 2 + 2 * Lowest(x / 2, n - 1)
  }

  lemma {:induction false} AndOnes(x: nat, n: nat)
    ensures And(x, Ones(n)) == Lowest(x, n)
    decreases n
  {
    if x == 0 {
      LowestAll(x, n);
    } else if n > 0 {
      AndOnes(x / 2, n - 1);
    }
  }

  /** A number that fits into `n` bits is all its lowest bits. */
  lemma {:induction false} LowestAll(x: nat, n: nat)
    requires x <= Ones(n)
    ensures Lowest(x, n) == x
    decreases n
  {
    if n > 0 {
      LowestAll(x / 2, n - 1);
    }
  }

  lemma AndEven(x: nat, y: nat)
    ensures And(x, 2 * y) == 2 * And(x / 2, y)
  {
    if x != 0 && y != 0 {
      assert 2 * y / 2 == y && 2 * y % 2 == 0;
    }
  }

  /** A mask moved up by `j` bits picks the bits from bit `j` on. */
  lemma {:induction false} AndUp(x: nat, m: nat, j: nat)
    ensures And(x, Up(m, j)) == Up(And(Shr(x, j), m), j)
    decreases j
  {
    hide And;
    if j > 0 {
      AndUp(x / 2, m, j - 1);
      AndEven(x, Up(m, j - 1));
    }
  }

  // ---- The shifts of the code, as arithmetic ----

  lemma {:induction false} ShrShr(x: nat, j: nat, k: nat)
    ensures Shr(Shr(x, j), k) == Shr(x, j + k)
    decreases j
  {
    if j > 0 {
      ShrShr(x / 2, j - 1, k);
    }
  }

  lemma {:induction false} UpUp(x: nat, j: nat, k: nat)
    ensures Up(Up(x, j), k) == Up(x, j + k)
    decreases k
  {
    if k > 0 {
      UpUp(x, j, k - 1);
    }
  }

  lemma Shr9(x: nat)
    ensures Shr(x, 9) == x / 512
  {
    assert Shr(x, 9) == x / 2 / 2 / 2 / 2 / 2 / 2 / 2 / 2 / 2;
  }

  lemma Shr12(x: nat)
    ensures Shr(x, 12) == x / 4096
  {
    ShrShr(x, 9, 3);
    Shr9(x);
    assert Shr(x / 512, 3) == x / 512 / 2 / 2 / 2;
  }

  lemma Shr18(x: nat)
    ensures Shr(x, 18) == x / 0x4_0000
  {
    hide Shr;
    ShrShr(x, 9, 9);
    Shr9(x);
    Shr9(x / 512);
  }

  lemma Shr36(x: nat)
    ensures Shr(x, 36) == x / 0x10_0000_0000
  {
    hide Shr;
    ShrShr(x, 18, 18);
    Shr18(x);
    Shr18(x / 0x4_0000);
  }

  lemma Up9(x: nat)
    ensures Up(x, 9) == 512 * x
  {
  }

  lemma Up36(x: nat)
    ensures Up(x, 36) == 0x10_0000_0000 * x
  {
    UpUp(x, 9, 9);
    UpUp(x, 18, 9);
    UpUp(x, 27, 9);
    Up9(x);
    Up9(Up(x, 9));
    Up9(Up(x, 18));
    Up9(Up(x, 27));
  }

  lemma Up12(x: nat)
    ensures Up(x, 12) == 4096 * x
  {
    UpUp(x, 9, 3);
    Up9(x);
  }

  lemma {:induction false} ShlUp(x: Word, k: nat)
    ensures Shl(x, k) == Up(x, k) % WORD_SIZE
    decreases k
  {
    if k > 0 {
      ShlUp(2 * x % WORD_SIZE, k - 1);
      UpMod(2 * x, k - 1);
      UpUp(x, 1, k - 1);
    }
  }

  lemma {:induction false} UpMod(x: nat, k: nat)
    ensures Up(x % WORD_SIZE, k) % WORD_SIZE == Up(x, k) % WORD_SIZE
    decreases k
  {
    if k > 0 {
      UpMod(x, k - 1);
      DoubleMod(Up(x % WORD_SIZE, k - 1), Up(x, k - 1));
    }
  }

  lemma DoubleMod(a: nat, b: nat)
    requires a % WORD_SIZE == b % WORD_SIZE
    ensures 2 * a % WORD_SIZE == 2 * b % WORD_SIZE
  {
  }

  /** The lowest bits are a remainder. */
  lemma {:induction false} LowestMod(x: nat, n: nat)
    ensures Up(1, n) > 0 && Lowest(x, n) == x % Up(1, n)
    decreases n
  {
    if n > 0 {
      LowestMod(x / 2, n - 1);
      ModDouble(x, Up(1, n - 1));
    }
  }

  lemma ModDouble(x: nat, d: nat)
    requires d > 0
    ensures x % (2 * d) == x % 2 + 2 * (x / 2 % d)
  {
    var q, r := x / 2 / d, x / 2 % d;
    assert x / 2 == d * q + r;
    DivUnique(x, 2 * d, q, x % 2 + 2 * r);
  }

  lemma DivUnique(x: nat, d: nat, q: nat, r: nat)
    requires r < d && x == d * q + r
    ensures x / d == q && x % d == r
  {
    var k := x / d - q;
    assert x == d * (x / d) + x % d;
    assert d * (x / d) == d * q + d * k;
    assert d * k == r - x % d;
    MultipleSize(d, k);
  }

  lemma MultipleSize(d: nat, k: int)
    ensures k >= 1 ==> d * k >= d
    ensures k <= -1 ==> d * k <= 0 - d
  {
  }

  lemma Lowest9(x: nat)
    ensures Lowest(x, 9) == x % 512
  {
    hide Lowest;
    LowestMod(x, 9);
    Up9(1);
  }

  lemma UpPowers()
    ensures Up(1, 45) == 0x2000_0000_0000 && Up(1, 52) == 0x10_0000_0000_0000
  {
    UpUp(1, 36, 9);
    Up36(1);
    Up9(0x10_0000_0000);
    UpUp(1, 45, 7);
    assert Up(0x2000_0000_0000, 7) == 0x10_0000_0000_0000;
  }

  lemma {:induction false} OnesUp(n: nat)
    ensures Ones(n) == Up(1, n) - 1
  {
    if n > 0 {
      OnesUp(n - 1);
    }
  }
}

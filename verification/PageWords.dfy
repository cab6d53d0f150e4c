/** How the page table code takes words apart: the path of a virtual page number and the entries. */
module PageWords {
  import opened Words

  const NO_MAPPING: Word := 0xFFFF_FFFF_FFFF_FFFF

  /** `nine_bits_msb`, the mask of bits 36 to 44 */
  function NineBits(): Word {
    And(Not(Minus(Shl(1, 36), 1)), Minus(Shl(1, 45), 1))
  }

  /** `twelve_bits_lsb`, the mask of all but the 12 lowest bits */
  function PageBits(): Word {
    Not(Minus(Shl(1, 12), 1))
  }

  /** `curr_symbol` */
  function Symbol(temp: Word): Word {
    Shr(And(temp, NineBits()), 36)
  }

  /** `temp_vpn` after some iterations of the loop */
  function Shifted(vpn: Word, layers: nat): Word {
    if layers == 0 then vpn else Shl(Shifted(vpn, layers - 1), 9)
  }

  /** The five indices of the walk for a virtual page number. */
  function Path(vpn: Word): (p: seq<nat>)
    ensures |p| == 5
  {
    seq(5, i requires 0 <= i < 5 => Symbol(Shifted(vpn, i)) as nat)
  }

  const LOW45: nat := 0x2000_0000_0000
  const LOW36: nat := 0x10_0000_0000

  lemma NineBitsValue()
    ensures NineBits() == Up(Ones(9), 36)
  {
    hide And, Lowest, Shl, Up, Ones;
    ShlUp(1, 36);
    ShlUp(1, 45);
    Up36(1);
    UpPowers();
    OnesUp(45);
    OnesUp(9);
    Up9(1);
    Up36(511);
    AndOnes(WORD_SIZE - LOW36, 45);
    LowestMod(WORD_SIZE - LOW36, 45);
  }

  lemma PageBitsValue()
    ensures PageBits() == Up(Ones(52), 12)
  {
    hide Shl, Up, Ones;
    ShlUp(1, 12);
    Up12(1);
    Up12(Ones(52));
    OnesUp(52);
    UpPowers();
  }

  /** One symbol is bits 36 to 44 of the shifted number. */
  lemma SymbolValue(temp: Word)
    ensures Symbol(temp) == temp % LOW45 / LOW36
  {
    hide And, Shr, NineBits;
    SymbolBits(temp);
    MiddleBits(temp);
    Shr36(LOW36 * (temp / LOW36 % 512));
    DivUnique(LOW36 * (temp / LOW36 % 512), LOW36, temp / LOW36 % 512, 0);
  }

  lemma SymbolBits(temp: Word)
    ensures And(temp, NineBits()) == LOW36 * (temp / LOW36 % 512)
  {
    hide And, Shr, Up, Lowest, NineBits, Ones;
    NineBitsValue();
    AndUp(temp, Ones(9), 36);
    Shr36(temp);
    AndOnes(temp / LOW36, 9);
    Lowest9(temp / LOW36);
    Up36(temp / LOW36 % 512);
  }

  lemma MiddleBits(x: nat)
    ensures x % LOW45 / LOW36 == x / LOW36 % 512
  {
    var a, b := x / LOW36, x % LOW36;
    var c, d := a / 512, a % 512;
    DivUnique(x, LOW45, c, LOW36 * d + b);
    DivUnique(LOW36 * d + b, LOW36, d, b);
  }

  lemma ShlLow(x: Word)
    ensures Shl(x, 9) % LOW45 == 512 * (x % LOW45) % LOW45
  {
    hide Shl, Up;
    ShlUp(x, 9);
    Up9(x);
    LowOfLow(512 * x);
    LowTimes(x);
  }

  lemma LowOfLow(z: nat)
    ensures z % WORD_SIZE % LOW45 == z % LOW45
  {
  }

  lemma LowTimes(x: nat)
    ensures 512 * x % LOW45 == 512 * (x % LOW45) % LOW45
  {
  }

  // ---- The path is the five base-512 digits of the low 45 bits ----

  /** Digit `i` of a 45-bit number, most significant first. */
  function Digit(y: nat, i: nat): nat
    requires i < 5
  {
    match i
    case 0 => y / 0x10_0000_0000 % 512
    case 1 => y / 0x800_0000 % 512
    case 2 => y / 0x4_0000 % 512
    case 3 => y / 0x200 % 512
    case 4 => y % 512
  }

  /** The number with these five digits. */
  function Number(s0: nat, s1: nat, s2: nat, s3: nat, s4: nat): nat {
    0x10_0000_0000 * s0 + 0x800_0000 * s1 + 0x4_0000 * s2 + 0x200 * s3 + s4
  }

  lemma DigitsOfNumber(s0: nat, s1: nat, s2: nat, s3: nat, s4: nat)
    requires s0 < 512 && s1 < 512 && s2 < 512 && s3 < 512 && s4 < 512
    ensures var y := Number(s0, s1, s2, s3, s4);
      Digit(y, 0) == s0 && Digit(y, 1) == s1 && Digit(y, 2) == s2 && Digit(y, 3) == s3 && Digit(y, 4) == s4
  {
    var y := Number(s0, s1, s2, s3, s4);
    var a := 512 * s0 + s1;
    var b := 512 * a + s2;
    var c := 512 * b + s3;
    DivUnique(y, 0x200, c, s4);
    DivUnique(y, 0x4_0000, b, 0x200 * s3 + s4);
    DivUnique(y, 0x800_0000, a, 0x4_0000 * s2 + 0x200 * s3 + s4);
    DivUnique(y, 0x10_0000_0000, s0, 0x800_0000 * s1 + 0x4_0000 * s2 + 0x200 * s3 + s4);
    DivUnique(c, 512, b, s3);
    DivUnique(b, 512, a, s2);
    DivUnique(a, 512, s0, s1);
  }

  lemma NumberOfDigits(y: nat)
    requires y < LOW45
    ensures y == Number(Digit(y, 0), Digit(y, 1), Digit(y, 2), Digit(y, 3), Digit(y, 4))
  {
    var a, b, c, d := y / 0x200, y / 0x4_0000, y / 0x800_0000, y / 0x10_0000_0000;
    assert y == 0x200 * a + y % 512;
    assert a == 512 * b + a % 512;
    assert b == 512 * c + b % 512;
    assert c == 512 * d + c % 512;
    assert d < 512;
  }

  /** Moving up by one digit drops the first. */
  lemma DigitShift(y: nat, i: nat)
    requires y < LOW45 && i < 4
    ensures Digit(512 * y % LOW45, i) == Digit(y, i + 1)
  {
    hide Digit;
    var s1, s2, s3, s4 := Digit(y, 1), Digit(y, 2), Digit(y, 3), Digit(y, 4);
    NumberOfDigits(y);
    DigitBound(y);
    assert 512 * y % LOW45 == Number(s1, s2, s3, s4, 0);
    DigitsOfNumber(s1, s2, s3, s4, 0);
  }

  lemma DigitBound(y: nat)
    ensures forall i :: 0 <= i < 5 ==> Digit(y, i) < 512
  {
  }

  /** The walk takes the five base-512 digits of the low 45 bits, most significant first. */
  lemma PathIsDigits(vpn: Word, i: nat)
    requires i < 5
    ensures Path(vpn)[i] == Digit(vpn % LOW45, i) < 512
  {
    DigitBound(vpn % LOW45);
    SymbolIsDigit(vpn, i, 0);
  }

  /** After `i` shifts the remaining digits stand first. */
  lemma {:induction false} SymbolIsDigit(vpn: Word, i: nat, j: nat)
    requires i + j < 5
    ensures Digit(Shifted(vpn, i) % LOW45, j) == Digit(vpn % LOW45, i + j)
    ensures j == 0 ==> Symbol(Shifted(vpn, i)) == Digit(vpn % LOW45, i)
  {
    hide Symbol, Shl;
    var temp := Shifted(vpn, i);
    if i > 0 {
      var before := Shifted(vpn, i - 1);
      SymbolIsDigit(vpn, i - 1, j + 1);
      ShlLow(before);
      DigitShift(before % LOW45, j);
    }
    SymbolValue(temp);
    FirstDigit(temp % LOW45);
  }

  lemma FirstDigit(y: nat)
    requires y < LOW45
    ensures Digit(y, 0) == y / LOW36
  {
  }

  /** Two page numbers follow the same path exactly when their low 45 bits agree. */
  lemma SamePath(u: Word, v: Word)
    ensures Path(u) == Path(v) <==> u % LOW45 == v % LOW45
  {
    hide Path, Digit;
    forall i | 0 <= i < 5
      ensures Path(u)[i] == Digit(u % LOW45, i) && Path(v)[i] == Digit(v % LOW45, i)
    {
      PathIsDigits(u, i);
      PathIsDigits(v, i);
    }
    NumberOfDigits(u % LOW45);
    NumberOfDigits(v % LOW45);
  }

  // ---- Entries ----

  lemma ValidBit(w: Word)
    ensures And(w, 1) == w % 2
  {
    hide And;
    AndOnes(w, 1);
    assert Ones(1) == 1 && Lowest(w, 1) == w % 2;
  }

  lemma ClearValidBit(w: Word)
    ensures Shl(Shr(w, 1), 1) == w - w % 2
  {
    assert Shr(w, 1) == w / 2;
    assert Shl(w / 2, 1) == 2 * (w / 2) % WORD_SIZE;
  }

  lemma PageOf(w: Word)
    ensures And(w, PageBits()) == 4096 * (w / 4096) && Shr(And(w, PageBits()), 12) == w / 4096
  {
    hide And, Shr, Up, Lowest, PageBits, Ones;
    PageBitsValue();
    AndUp(w, Ones(52), 12);
    Shr12(w);
    AndOnes(w / 4096, 52);
    OnesUp(52);
    UpPowers();
    LowestAll(w / 4096, 52);
    Up12(w / 4096);
    Shr12(4096 * (w / 4096));
  }

  /** A page number made into an entry with the valid bit set: 12 of its bits are lost. */
  lemma EntryOf(ppn: Word)
    ensures Plus(Shl(ppn, 12), 1) == ppn % 0x10_0000_0000_0000 * 4096 + 1
  {
    hide Shl, Up;
    ShlUp(ppn, 12);
    Up12(ppn);
    assert 4096 * ppn % WORD_SIZE == 4096 * (ppn % 0x10_0000_0000_0000);
  }
}

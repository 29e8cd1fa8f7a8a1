/**
 * Unmasked Clyde-128, the tweakable block cipher inside Spook, as the masked
 * implementation computes it: bitsliced S-box on the four lanes, L-box on
 * the lane pairs (0, 1) and (2, 3), round constants from a 4-bit LFSR and a
 * tweakey added every second step, with the tweak schedule picked by a
 * two-bit offset register. This is the reference against which the masked
 * cipher is proved.
 */
module Clyde {
  import opened Words
  import opened WordLaws
  import opened Gadgets
  import opened Sharing

  // ---------------------------------------------------------------------
  // Rotations
  // ---------------------------------------------------------------------

  /** `rotr(x, c)`: right rotation of a 32-bit word by 0 < c < 32 places. */
  function Rotr(x: Word, c: Word): Word
    requires 0 < c < 32
  {
    (x >> c) | ((x << (32 - c)) & 0xFFFF_FFFF)
  }

  /** The rotation amounts the L-box uses. */
  predicate Amount(c: Word)
  {
    c == 3 || c == 12 || c == 15 || c == 17 || c == 25 || c == 26 || c == 31
  }

  // The solver settles each rotation amount given as a literal, but not a
  // symbolic one: the two properties below are case splits over the amounts,
  // four at a time (1 to 4, 5 to 8, ...).

  lemma RotrIsRotationFrom1(x: Word, c: Word)
    requires 1 <= c <= 4
    ensures Rotr(x, c) == x.RotateRight(c as nat)
  {
    if c == 1 {
    } else if c == 2 {
    } else if c == 3 {
    } else {
      assert c == 4;
    }
  }

  lemma RotrIsRotationFrom5(x: Word, c: Word)
    requires 5 <= c <= 8
    ensures Rotr(x, c) == x.RotateRight(c as nat)
  {
    if c == 5 {
    } else if c == 6 {
    } else if c == 7 {
    } else {
      assert c == 8;
    }
  }

  lemma RotrIsRotationFrom9(x: Word, c: Word)
    requires 9 <= c <= 12
    ensures Rotr(x, c) == x.RotateRight(c as nat)
  {
    if c == 9 {
    } else if c == 10 {
    } else if c == 11 {
    } else {
      assert c == 12;
    }
  }

  lemma RotrIsRotationFrom13(x: Word, c: Word)
    requires 13 <= c <= 16
    ensures Rotr(x, c) == x.RotateRight(c as nat)
  {
    if c == 13 {
    } else if c == 14 {
    } else if c == 15 {
    } else {
      assert c == 16;
    }
  }

  lemma RotrIsRotationFrom17(x: Word, c: Word)
    requires 17 <= c <= 20
    ensures Rotr(x, c) == x.RotateRight(c as nat)
  {
    if c == 17 {
    } else if c == 18 {
    } else if c == 19 {
    } else {
      assert c == 20;
    }
  }

  lemma RotrIsRotationFrom21(x: Word, c: Word)
    requires 21 <= c <= 24
    ensures Rotr(x, c) == x.RotateRight(c as nat)
  {
    if c == 21 {
    } else if c == 22 {
    } else if c == 23 {
    } else {
      assert c == 24;
    }
  }

  lemma RotrIsRotationFrom25(x: Word, c: Word)
    requires 25 <= c <= 28
    ensures Rotr(x, c) == x.RotateRight(c as nat)
  {
    if c == 25 {
    } else if c == 26 {
    } else if c == 27 {
    } else {
      assert c == 28;
    }
  }

  lemma RotrIsRotationFrom29(x: Word, c: Word)
    requires 29 <= c <= 31
    ensures Rotr(x, c) == x.RotateRight(c as nat)
  {
    if c == 29 {
    } else if c == 30 {
    } else {
      assert c == 31;
    }
  }

  /** For every amount 0 < c < 32, the shift-and-mask `rotr` is the bit-vector rotation. */
  lemma RotrIsRotation(x: Word, c: Word)
    requires 0 < c < 32
    ensures Rotr(x, c) == x.RotateRight(c as nat)
  {
    if c <= 4 {
      RotrIsRotationFrom1(x, c);
    } else if c <= 8 {
      RotrIsRotationFrom5(x, c);
    } else if c <= 12 {
      RotrIsRotationFrom9(x, c);
    } else if c <= 16 {
      RotrIsRotationFrom13(x, c);
    } else if c <= 20 {
      RotrIsRotationFrom17(x, c);
    } else if c <= 24 {
      RotrIsRotationFrom21(x, c);
    } else if c <= 28 {
      RotrIsRotationFrom25(x, c);
    } else {
      RotrIsRotationFrom29(x, c);
    }
  }

  /** `rotr` by 3, 12, 15 or 17 distributes over the raw XOR. */
  lemma RotrRawLow(x: Word, y: Word, c: Word)
    requires c == 3 || c == 12 || c == 15 || c == 17
    ensures Rotr(x ^ y, c) == Rotr(x, c) ^ Rotr(y, c)
  {
    if c == 3 {
    } else if c == 12 {
    } else if c == 15 {
    } else {
      assert c == 17;
    }
  }

  /** `rotr` by 25, 26 or 31 distributes over the raw XOR. */
  lemma RotrRawHigh(x: Word, y: Word, c: Word)
    requires c == 25 || c == 26 || c == 31
    ensures Rotr(x ^ y, c) == Rotr(x, c) ^ Rotr(y, c)
  {
    if c == 25 {
    } else if c == 26 {
    } else {
      assert c == 31;
    }
  }

  /** For every amount of the L-box, `rotr` distributes over XOR. */
  lemma RotrXor(x: Word, y: Word, c: Word)
    requires Amount(c)
    ensures Rotr(Xor(x, y), c) == Xor(Rotr(x, c), Rotr(y, c))
  {
    XorIs(x, y);
    XorIs(Rotr(x, c), Rotr(y, c));
    if c <= 17 {
      RotrRawLow(x, y, c);
    } else {
      RotrRawHigh(x, y, c);
    }
  }

  /** u + rotr(v, c) is additive in the pair (u, v). */
  lemma XorRotr(u: Word, v: Word, u': Word, v': Word, c: Word)
    requires Amount(c)
    ensures Xor(Xor(u, u'), Rotr(Xor(v, v'), c)) == Xor(Xor(u, Rotr(v, c)), Xor(u', Rotr(v', c)))
  {
    RotrXor(v, v', c);
    BitsLaws();
    Interleave(Bits, u, u', Rotr(v, c), Rotr(v', c));
  }

  // ---------------------------------------------------------------------
  // L-box
  // ---------------------------------------------------------------------

  /** `lbox(x, y)`: the linear layer on one pair of lanes. */
  function LBox(x: Word, y: Word): (Word, Word)
  {
    var a := Xor(x, Rotr(x, 12));
    var b := Xor(y, Rotr(y, 12));
    var a := Xor(a, Rotr(a, 3));
    var b := Xor(b, Rotr(b, 3));
    var a := Xor(a, Rotr(x, 17));
    var b := Xor(b, Rotr(y, 17));
    var c := Xor(a, Rotr(a, 31));
    var d := Xor(b, Rotr(b, 31));
    var a := Xor(a, Rotr(d, 26));
    var b := Xor(b, Rotr(c, 25));
    var a := Xor(a, Rotr(c, 15));
    var b := Xor(b, Rotr(d, 15));
    (a, b)
  }

  /** The L-box is linear over XOR: applied to a sum of pairs it gives the sum of the images. */
  lemma LBoxAdditive(x: Word, y: Word, x': Word, y': Word)
    ensures LBox(Xor(x, x'), Xor(y, y')) == (Xor(LBox(x, y).0, LBox(x', y').0), Xor(LBox(x, y).1, LBox(x', y').1))
  {
    var a1, a1' := Xor(x, Rotr(x, 12)), Xor(x', Rotr(x', 12));
    XorRotr(x, x, x', x', 12);
    var b1, b1' := Xor(y, Rotr(y, 12)), Xor(y', Rotr(y', 12));
    XorRotr(y, y, y', y', 12);
    var a2, a2' := Xor(a1, Rotr(a1, 3)), Xor(a1', Rotr(a1', 3));
    XorRotr(a1, a1, a1', a1', 3);
    var b2, b2' := Xor(b1, Rotr(b1, 3)), Xor(b1', Rotr(b1', 3));
    XorRotr(b1, b1, b1', b1', 3);
    var a3, a3' := Xor(a2, Rotr(x, 17)), Xor(a2', Rotr(x', 17));
    XorRotr(a2, x, a2', x', 17);
    var b3, b3' := Xor(b2, Rotr(y, 17)), Xor(b2', Rotr(y', 17));
    XorRotr(b2, y, b2', y', 17);
    var c, c' := Xor(a3, Rotr(a3, 31)), Xor(a3', Rotr(a3', 31));
    XorRotr(a3, a3, a3', a3', 31);
    var d, d' := Xor(b3, Rotr(b3, 31)), Xor(b3', Rotr(b3', 31));
    XorRotr(b3, b3, b3', b3', 31);
    var a4, a4' := Xor(a3, Rotr(d, 26)), Xor(a3', Rotr(d', 26));
    XorRotr(a3, d, a3', d', 26);
    var b4, b4' := Xor(b3, Rotr(c, 25)), Xor(b3', Rotr(c', 25));
    XorRotr(b3, c, b3', c', 25);
    XorRotr(a4, c, a4', c', 15);
    XorRotr(b4, d, b4', d', 15);
  }

  /** The L-box maps the zero pair to the zero pair. */
  lemma LBoxZero()
    ensures LBox(0, 0) == (0, 0)
  {
    XorZero(0);
    LBoxAdditive(0, 0, 0, 0);
  }

  /** First and second output word of the L-box as functions of the pair. */
  function LBoxLeft(x: Word, y: Word): Word
  {
    LBox(x, y).0
  }

  function LBoxRight(x: Word, y: Word): Word
  {
    LBox(x, y).1
  }

  lemma LBoxLeftAt(x: Word, y: Word, x': Word, y': Word)
    ensures LBoxLeft(Bits.add(x, x'), Bits.add(y, y')) == Bits.add(LBoxLeft(x, y), LBoxLeft(x', y'))
  {
    LBoxAdditive(x, y, x', y');
  }

  lemma LBoxRightAt(x: Word, y: Word, x': Word, y': Word)
    ensures LBoxRight(Bits.add(x, x'), Bits.add(y, y')) == Bits.add(LBoxRight(x, y), LBoxRight(x', y'))
  {
    LBoxAdditive(x, y, x', y');
  }

  /** The first half of the L-box is an additive map of the share algebra. */
  lemma LBoxLeftAdditive()
    ensures Additive(Bits, LBoxLeft)
  {
    LBoxZero();
    var g: (Word, Word) -> Word := LBoxLeft;
    forall x: Word, y: Word, x': Word, y': Word
      ensures g(Bits.add(x, x'), Bits.add(y, y')) == Bits.add(g(x, y), g(x', y'))
    {
      LBoxLeftAt(x, y, x', y');
    }
  }

  /** The second half of the L-box is an additive map of the share algebra. */
  lemma LBoxRightAdditive()
    ensures Additive(Bits, LBoxRight)
  {
    LBoxZero();
    var g: (Word, Word) -> Word := LBoxRight;
    forall x: Word, y: Word, x': Word, y': Word
      ensures g(Bits.add(x, x'), Bits.add(y, y')) == Bits.add(g(x, y), g(x', y'))
    {
      LBoxRightAt(x, y, x', y');
    }
  }

  /** The L-box layer on a block: lanes (0, 1) and lanes (2, 3). */
  function LBoxLayer(b: Block): Block
  {
    var p := LBox(b.x0, b.x1);
    var q := LBox(b.x2, b.x3);
    Block(p.0, p.1, q.0, q.1)
  }

  // ---------------------------------------------------------------------
  // S-box
  // ---------------------------------------------------------------------

  /**
   * The bitsliced S-box on the four lanes (a, b, c, d):
   * y1 = ab + c, y0 = da + b, y3 = y1 d + a, y2 = y0 y1 + d.
   */
  function SBox(s: Block): Block
  {
    var y1 := Xor(And(s.x0, s.x1), s.x2);
    var y0 := Xor(And(s.x3, s.x0), s.x1);
    var y3 := Xor(And(y1, s.x3), s.x0);
    var y2 := Xor(And(y0, y1), s.x3);
    Block(y0, y1, y2, y3)
  }

  /** The inverse S-box, undoing the four steps of `SBox` from the last to the first. */
  function SBoxInv(y: Block): Block
  {
    var d := Xor(y.x2, And(y.x0, y.x1));
    var a := Xor(y.x3, And(y.x1, d));
    var b := Xor(y.x0, And(d, a));
    var c := Xor(y.x1, And(a, b));
    Block(a, b, c, d)
  }

  /** Adding t twice, once on either side, gives back x. */
  lemma XorCancel(t: Word, x: Word)
    ensures Xor(Xor(t, x), t) == x && Xor(x, Xor(t, x)) == t
  {
    XorCommutes(Xor(t, x), t);
    XorAssociates(t, t, x);
    XorZero(t);
    XorCommutes(x, 0);
    XorZero(0);
    XorAssociates(x, t, x);
    XorCommutes(x, Xor(t, x));
    XorCommutes(t, x);
    XorAssociates(x, x, t);
    XorZero(x);
    XorCommutes(0, t);
    XorZero(t);
  }

  /** `SBoxInv` undoes the S-box. */
  lemma SBoxInvertible(s: Block)
    ensures SBoxInv(SBox(s)) == s
  {
    var y1 := Xor(And(s.x0, s.x1), s.x2);
    var y0 := Xor(And(s.x3, s.x0), s.x1);
    XorCancel(And(y0, y1), s.x3);
    XorCancel(And(y1, s.x3), s.x0);
    XorCancel(And(s.x3, s.x0), s.x1);
    XorCancel(And(s.x0, s.x1), s.x2);
  }

  /** The S-box undoes `SBoxInv`: together with `SBoxInvertible`, the S-box is a bijection on blocks. */
  lemma SBoxSurjective(y: Block)
    ensures SBox(SBoxInv(y)) == y
  {
    var d := Xor(y.x2, And(y.x0, y.x1));
    var a := Xor(y.x3, And(y.x1, d));
    var b := Xor(y.x0, And(d, a));
    XorCancel(y.x1, And(a, b));
    XorCancel(y.x0, And(d, a));
    XorCancel(y.x3, And(y.x1, d));
    XorCancel(y.x2, And(y.x0, y.x1));
  }

  // ---------------------------------------------------------------------
  // Round constants
  // ---------------------------------------------------------------------

  /** The 4-bit LFSR register of the round constants (a Python integer below 16). */
  type Lfsr = bv8

  /** The LFSR update: b = l & 1; l = ((l ^ (b << 3)) | (b << 4)) >> 1. */
  function LfsrNext(l: Lfsr): Lfsr
  {
    var b := l & 1;
    ((l ^ (b << 3)) | (b << 4)) >> 1
  }

  /**
   * On 4-bit values the update is a Galois LFSR: shift right, and when the
   * bit shifted out is one, flip bits 3 and 2. It keeps the register a nonzero
   * 4-bit value.
   */
  lemma LfsrIsGalois(l: Lfsr)
    requires l < 16
    ensures LfsrNext(l) == (l >> 1) ^ (if l & 1 == 1 then 0xC else 0)
    ensures LfsrNext(l) < 16
    ensures l != 0 ==> LfsrNext(l) != 0
  {
  }

  /** The register after n updates. */
  function LfsrIter(l: Lfsr, n: nat): Lfsr
    decreases n
  {
    if n == 0 then l else LfsrIter(LfsrNext(l), n - 1)
  }

  lemma {:induction false} LfsrIterLast(l: Lfsr, n: nat)
    ensures LfsrIter(l, n + 1) == LfsrNext(LfsrIter(l, n))
    decreases n
  {
    if n > 0 {
      LfsrIterLast(LfsrNext(l), n - 1);
    }
  }

  /** The orbit of the register from 0b1000: fifteen distinct nonzero values. */
  const LfsrCycle: seq<Lfsr> := [8, 4, 2, 1, 12, 6, 3, 13, 10, 5, 14, 7, 15, 11, 9]

  /** The twelve round constants of Clyde-128: the first twelve values of the orbit. */
  const RoundConstants: seq<Lfsr> := [8, 4, 2, 1, 12, 6, 3, 13, 10, 5, 14, 7]

  /** The first fifteen values of the register from 8 are the orbit, and then it is back at 8. */
  lemma LfsrFirstValues()
    ensures forall i | 0 <= i < 15 :: LfsrIter(8, i) == LfsrCycle[i]
    ensures LfsrIter(8, 15) == 8
  {
    LfsrIterLast(8, 0);
    assert LfsrNext(8) == 4;
    LfsrIterLast(8, 1);
    assert LfsrNext(4) == 2;
    LfsrIterLast(8, 2);
    assert LfsrNext(2) == 1;
    LfsrIterLast(8, 3);
    assert LfsrNext(1) == 12;
    LfsrIterLast(8, 4);
    assert LfsrNext(12) == 6;
    LfsrIterLast(8, 5);
    assert LfsrNext(6) == 3;
    LfsrIterLast(8, 6);
    assert LfsrNext(3) == 13;
    LfsrIterLast(8, 7);
    assert LfsrNext(13) == 10;
    LfsrIterLast(8, 8);
    assert LfsrNext(10) == 5;
    LfsrIterLast(8, 9);
    assert LfsrNext(5) == 14;
    LfsrIterLast(8, 10);
    assert LfsrNext(14) == 7;
    LfsrIterLast(8, 11);
    assert LfsrNext(7) == 15;
    LfsrIterLast(8, 12);
    assert LfsrNext(15) == 11;
    LfsrIterLast(8, 13);
    assert LfsrNext(11) == 9;
    LfsrIterLast(8, 14);
    assert LfsrNext(9) == 8;
  }

  lemma {:induction false} LfsrIterAdd(l: Lfsr, a: nat, b: nat)
    ensures LfsrIter(l, a + b) == LfsrIter(LfsrIter(l, a), b)
    decreases a
  {
    if a > 0 {
      LfsrIterAdd(LfsrNext(l), a - 1, b);
    }
  }

  /** Started at 8 the register runs through the twelve Clyde-128 constants, and it has period 15. */
  lemma LfsrSchedule()
    ensures forall i | 0 <= i < 12 :: LfsrIter(8, i) == RoundConstants[i]
    ensures forall n: nat :: LfsrIter(8, n + 15) == LfsrIter(8, n)
  {
    LfsrFirstValues();
    forall n: nat ensures LfsrIter(8, n + 15) == LfsrIter(8, n) {
      LfsrIterAdd(8, 15, n);
    }
  }

  /** `XORCST_MASK` in clear: bit 3 of the register goes to lane 0, bit 2 to lane 1, bit 1 to lane 2, bit 0 to lane 3. */
  function RoundConstant(l: Lfsr): (c: Block)
    ensures c.x0 == (if l & 8 == 0 then 0 else 1) && c.x1 == (if l & 4 == 0 then 0 else 1)
    ensures c.x2 == (if l & 2 == 0 then 0 else 1) && c.x3 == (if l & 1 == 0 then 0 else 1)
  {
    Block(((l >> 3) & 1) as Word, ((l >> 2) & 1) as Word, ((l >> 1) & 1) as Word, (l & 1) as Word)
  }

  // ---------------------------------------------------------------------
  // Tweak schedule
  // ---------------------------------------------------------------------

  /** The three tweaks: t, (t0+t2, t1+t3, t0, t1) and (t2, t3, t0+t2, t1+t3). */
  datatype Tweaks = Tweaks(tk0: Block, tk1: Block, tk2: Block)

  function TweakSchedule(t: Block): (tk: Tweaks)
    ensures tk.tk0 == t && XorBlock(tk.tk1, tk.tk2) == t
    ensures tk.tk1.x2 == t.x0 && tk.tk1.x3 == t.x1 && tk.tk2.x0 == t.x2 && tk.tk2.x1 == t.x3
  {
    var u := Xor(t.x0, t.x2);
    var v := Xor(t.x1, t.x3);
    XorSwap(t.x0, t.x2);
    XorSwap(t.x1, t.x3);
    Tweaks(t, Block(u, v, t.x0, t.x1), Block(t.x2, t.x3, u, v))
  }

  /** (x + y) + y = x and x + (x + y) = y. */
  lemma XorSwap(x: Word, y: Word)
    ensures Xor(Xor(x, y), y) == x
    ensures Xor(x, Xor(x, y)) == y
  {
    XorAssociates(x, y, y);
    XorZero(y);
    XorZero(x);
    XorAssociates(x, x, y);
    XorCommutes(0, y);
  }

  /** `tk[i]`; the offset register only ever selects 0, 1 or 2. */
  function Tweak(tk: Tweaks, i: nat): Block
    requires i < 3
  {
    if i == 0 then tk.tk0 else if i == 1 then tk.tk1 else tk.tk2
  }

  /** The values the offset register takes: 0x924 shifted right by two, six times. */
  predicate Offset(off: nat)
  {
    off == 0x924 || off == 585 || off == 146 || off == 36 || off == 9 || off == 2 || off == 0
  }

  /**
   * Shifting the offset keeps it among those values and picks tweak 1, 2, 0,
   * 1, 2, 0 in the six rounds, then 0: the tweak index is never 3.
   */
  lemma OffsetStep(off: nat)
    requires Offset(off)
    ensures Offset(off / 4) && (off / 4) % 4 < 3
    ensures off == 0x924 ==> (off / 4) % 4 == 1
    ensures off != 0 ==> (off / 4) % 4 == (if off == 0x924 || off == 36 then 1 else if off == 585 || off == 9 then 2 else 0)
  {
  }

  // ---------------------------------------------------------------------
  // The cipher
  // ---------------------------------------------------------------------

  /** The state after the S-box and, unless the run stops there, the L-box and round constant. */
  function Step(s: Block, l: Lfsr): Block
  {
    XorBlock(LBoxLayer(SBox(s)), RoundConstant(l))
  }

  /**
   * One full round in clear: two steps, with register values l and its
   * successor, then the key and the tweak the shifted offset selects.
   */
  function Round(st: Block, k: Block, tk: Tweaks, off: nat, l: Lfsr): Block
    requires Offset(off)
  {
    OffsetStep(off);
    XorBlock(XorBlock(Step(Step(st, l), LfsrNext(l)), k), Tweak(tk, (off / 4) % 4))
  }

  /**
   * Rounds s .. nr - 1 of `clyde128_encrypt_masked` in clear. In the last
   * round the run stops after the first S-box when `step` is 0 and after the
   * second when it is 1; otherwise the last round is a full one.
   */
  function Rounds(st: Block, k: Block, tk: Tweaks, s: nat, nr: nat, step: nat, off: nat, l: Lfsr): Block
    requires s <= nr && Offset(off)
    decreases nr - s
  {
    if s == nr then st
    else if s == nr - 1 && step == 0 then SBox(st)
    else if s == nr - 1 && step == 1 then SBox(Step(st, l))
    else
      OffsetStep(off);
      Rounds(Round(st, k, tk, off, l), k, tk, s + 1, nr, step, off / 4, LfsrNext(LfsrNext(l)))
  }

  /** Clyde-128 encryption of plaintext p under tweak t and key k, stopped after round nr as `step` says. */
  function Encrypt(p: Block, t: Block, k: Block, nr: nat, step: nat): Block
  {
    Rounds(XorBlock(XorBlock(k, t), p), k, TweakSchedule(t), 0, nr, step, 0x924, 8)
  }
}

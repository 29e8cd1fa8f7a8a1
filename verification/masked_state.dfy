/**
 * Masked 128-bit states. In the co-simulator a masked state is a flat
 * vector of 4·D words: lane i (word i of the block) is shared by the words
 * i·D .. i·D + D - 1. The model keeps the four lanes apart in a
 * `MaskedBlock` and converts at the edges (`Split`, `Flatten`).
 */
module MaskedState {
  import opened Words
  import opened WordLaws
  import opened Gadgets
  import opened Sharing

  /** Four sharings, one per lane of the block. */
  datatype MaskedBlock = MaskedBlock(x0: seq<Word>, x1: seq<Word>, x2: seq<Word>, x3: seq<Word>)

  /** Every lane has d shares. */
  predicate HasOrder(m: MaskedBlock, d: nat)
  {
    |m.x0| == d && |m.x1| == d && |m.x2| == d && |m.x3| == d
  }

  /** The block a masked state stands for: the secret of each lane. */
  function Unmask(m: MaskedBlock): Block
  {
    Block(Secret(m.x0), Secret(m.x1), Secret(m.x2), Secret(m.x3))
  }

  /** The lanes of a flat 4·D vector: lane i holds words i·D .. i·D + D - 1. */
  function Split(flat: seq<Word>, d: nat): (m: MaskedBlock)
    requires |flat| == 4 * d
    ensures HasOrder(m, d)
    ensures forall j | 0 <= j < d ::
      m.x0[j] == flat[j] && m.x1[j] == flat[d + j] && m.x2[j] == flat[2 * d + j] && m.x3[j] == flat[3 * d + j]
  {
    MaskedBlock(flat[0..d], flat[d..2 * d], flat[2 * d..3 * d], flat[3 * d..4 * d])
  }

  /** The flat 4·D vector of a masked state. */
  function Flatten(m: MaskedBlock, d: nat): (flat: seq<Word>)
    requires HasOrder(m, d)
    ensures |flat| == 4 * d
    ensures forall j | 0 <= j < d ::
      flat[j] == m.x0[j] && flat[d + j] == m.x1[j] && flat[2 * d + j] == m.x2[j] && flat[3 * d + j] == m.x3[j]
  {
    m.x0 + m.x1 + m.x2 + m.x3
  }

  lemma SplitFlatten(m: MaskedBlock, d: nat)
    requires HasOrder(m, d)
    ensures Split(Flatten(m, d), d) == m
  {
    var flat := Flatten(m, d);
    assert flat[0..d] == m.x0;
    assert flat[d..2 * d] == m.x1;
    assert flat[2 * d..3 * d] == m.x2;
    assert flat[3 * d..4 * d] == m.x3;
  }

  lemma FlattenSplit(flat: seq<Word>, d: nat)
    requires |flat| == 4 * d
    ensures Flatten(Split(flat, d), d) == flat
  {
    assert flat == flat[0..d] + flat[d..2 * d] + flat[2 * d..3 * d] + flat[3 * d..4 * d];
  }

  // ---------------------------------------------------------------------
  // umask
  // ---------------------------------------------------------------------

  /** Adds w into lane l of an unmasked block (lane 3 for any l >= 3). */
  function XorLane(b: Block, l: nat, w: Word): Block
  {
    if l == 0 then b.(x0 := Xor(b.x0, w))
    else if l == 1 then b.(x1 := Xor(b.x1, w))
    else if l == 2 then b.(x2 := Xor(b.x2, w))
    else b.(x3 := Xor(b.x3, w))
  }

  /** Lane of word i of a flat vector, with its bounds. */
  lemma LaneOf(i: nat, d: nat)
    requires i < 4 * d
    ensures d > 0 && i / d < 4
    ensures (i / d) * d <= i < (i / d) * d + d
  {
    var m := i / d;
    assert i == m * d + i % d;
  }

  /** The loop `for i in range(4*D): out[i//D] ^= k[i]` from word i on. */
  function UmaskLoop(k: seq<Word>, d: nat, i: nat, out: Block): Block
    requires |k| == 4 * d && i <= 4 * d
    decreases 4 * d - i
  {
    if i == 4 * d then out
    else UmaskLoop(k, d, i + 1, XorLane(out, i / d, k[i]))
  }

  /** `umask` of one flat masked vector. */
  function Umask(k: seq<Word>, d: nat): Block
    requires |k| == 4 * d
  {
    UmaskLoop(k, d, 0, Block(0, 0, 0, 0))
  }

  /** Index i clipped into the window [lo, lo + d] of one lane. */
  function Clip(i: nat, lo: nat, d: nat): nat
  {
    if i < lo then lo else if i > lo + d then lo + d else i
  }

  /** What the loop has accumulated in each lane after the first i words. */
  function Partial(k: seq<Word>, d: nat, i: nat): Block
    requires |k| == 4 * d
  {
    Block(RunningSum(Bits, k[0..Clip(i, 0, d)]), RunningSum(Bits, k[d..Clip(i, d, d)]),
          RunningSum(Bits, k[2 * d..Clip(i, 2 * d, d)]), RunningSum(Bits, k[3 * d..Clip(i, 3 * d, d)]))
  }

  /** The window of one lane grows by word i exactly when i lies in that lane. */
  lemma WindowStep<T>(r: Ring<T>, k: seq<T>, lo: nat, d: nat, i: nat)
    requires lo + d <= |k| && i < |k|
    ensures lo <= i < lo + d ==>
      RunningSum(r, k[lo..Clip(i + 1, lo, d)]) == r.add(RunningSum(r, k[lo..Clip(i, lo, d)]), k[i])
    ensures !(lo <= i < lo + d) ==>
      RunningSum(r, k[lo..Clip(i + 1, lo, d)]) == RunningSum(r, k[lo..Clip(i, lo, d)])
  {
    if lo <= i < lo + d {
      RunningSumExtend(r, k, lo, i);
    }
  }

  /** Before the loop a lane's window is empty; after it, the window is the whole lane. */
  lemma WindowEnds<T(!new)>(r: Ring<T>, k: seq<T>, lo: nat, d: nat)
    requires Laws(r) && lo + d <= |k|
    ensures RunningSum(r, k[lo..Clip(0, lo, d)]) == r.zero
    ensures RunningSum(r, k[lo..Clip(|k|, lo, d)]) == Fold(r, k[lo..lo + d])
  {
    assert k[lo..Clip(0, lo, d)] == [];
    RunningSumIsFold(r, k[lo..lo + d]);
  }

  /** The lane of word i of a flat vector of 4·d words, by comparison. */
  function LaneIndex(i: nat, d: nat): nat
  {
    if i < d then 0 else if i < 2 * d then 1 else if i < 3 * d then 2 else 3
  }

  lemma LaneIndexIsDiv(i: nat, d: nat)
    requires i < 4 * d
    ensures i / d == LaneIndex(i, d)
  {
    LaneOf(i, d);
  }

  lemma PartialLaneStep(k: seq<Word>, d: nat, i: nat)
    requires |k| == 4 * d && i < 4 * d
    ensures Partial(k, d, i + 1) == XorLane(Partial(k, d, i), LaneIndex(i, d), k[i])
  {
    hide RunningSum, Clip;
    WindowStep(Bits, k, 0, d, i);
    WindowStep(Bits, k, d, d, i);
    WindowStep(Bits, k, 2 * d, d, i);
    WindowStep(Bits, k, 3 * d, d, i);
  }

  lemma PartialStep(k: seq<Word>, d: nat, i: nat)
    requires |k| == 4 * d && i < 4 * d
    ensures Partial(k, d, i + 1) == XorLane(Partial(k, d, i), i / d, k[i])
  {
    LaneIndexIsDiv(i, d);
    PartialLaneStep(k, d, i);
  }

  lemma {:induction false} UmaskLoopPartial(k: seq<Word>, d: nat, i: nat)
    requires |k| == 4 * d && i <= 4 * d
    ensures UmaskLoop(k, d, i, Partial(k, d, i)) == Partial(k, d, 4 * d)
    decreases 4 * d - i
  {
    if i < 4 * d {
      PartialStep(k, d, i);
      UmaskLoopPartial(k, d, i + 1);
    }
  }

  lemma PartialEnds(k: seq<Word>, d: nat)
    requires |k| == 4 * d
    ensures Partial(k, d, 0) == Block(0, 0, 0, 0)
    ensures Partial(k, d, 4 * d) == Unmask(Split(k, d))
  {
    PartialZero(k, d);
    PartialFull(k, d);
  }
  lemma PartialZero(k: seq<Word>, d: nat)
    requires |k| == 4 * d
    ensures Partial(k, d, 0) == Block(0, 0, 0, 0)
  {
    LaneEnds(k, 0, d);
    LaneEnds(k, d, d);
    LaneEnds(k, 2 * d, d);
    LaneEnds(k, 3 * d, d);
  }
  lemma PartialFull(k: seq<Word>, d: nat)
    requires |k| == 4 * d
    ensures Partial(k, d, 4 * d) == Unmask(Split(k, d))
  {
    LaneFull(k, 0, d, d);
    LaneFull(k, d, 2 * d, d);
    LaneFull(k, 2 * d, 3 * d, d);
    LaneFull(k, 3 * d, 4 * d, d);
  }

  lemma LaneFull(k: seq<Word>, lo: nat, hi: nat, d: nat)
    requires hi == lo + d <= |k| == 4 * d
    ensures RunningSum(Bits, k[lo..Clip(4 * d, lo, d)]) == Secret(k[lo..hi])
  {
    LaneEnds(k, lo, d);
  }

  lemma LaneEnds(k: seq<Word>, lo: nat, d: nat)
    requires lo + d <= |k| == 4 * d
    ensures RunningSum(Bits, k[lo..Clip(0, lo, d)]) == 0
    ensures RunningSum(Bits, k[lo..Clip(4 * d, lo, d)]) == Secret(k[lo..lo + d])
  {
    BitsLaws();
    WindowEnds(Bits, k, lo, d);
  }

  /** `umask` XORs the shares of every lane: it unmasks the lanes of `Split`. */
  lemma UmaskIsUnmask(k: seq<Word>, d: nat)
    requires |k| == 4 * d
    ensures Umask(k, d) == Unmask(Split(k, d))
  {
    UmaskLoopPartial(k, d, 0);
    PartialEnds(k, d);
  }

  // ---------------------------------------------------------------------
  // add_clyde128_masked_state, XORLS_MASK
  // ---------------------------------------------------------------------

  /** Share-wise XOR of two masked states, lane by lane. */
  function AddState(a: MaskedBlock, b: MaskedBlock, d: nat): (c: MaskedBlock)
    requires HasOrder(a, d) && HasOrder(b, d)
    ensures HasOrder(c, d)
  {
    MaskedBlock(AddShares(Bits, a.x0, b.x0), AddShares(Bits, a.x1, b.x1),
                AddShares(Bits, a.x2, b.x2), AddShares(Bits, a.x3, b.x3))
  }

  /** Adding two masked states XORs the blocks they stand for. */
  lemma AddStateUnmask(a: MaskedBlock, b: MaskedBlock, d: nat)
    requires HasOrder(a, d) && HasOrder(b, d)
    ensures Unmask(AddState(a, b, d)) == XorBlock(Unmask(a), Unmask(b))
  {
    AddSharesUnmask(a.x0, b.x0);
    AddSharesUnmask(a.x1, b.x1);
    AddSharesUnmask(a.x2, b.x2);
    AddSharesUnmask(a.x3, b.x3);
  }

  /**
   * `add_clyde128_masked_state` on flat vectors: word j of the result is the
   * XOR of words j; on lanes it is `AddState`, so it XORs the unmasked blocks.
   */
  function AddMaskedState(a: seq<Word>, b: seq<Word>, d: nat): (c: seq<Word>)
    requires |a| == 4 * d && |b| == 4 * d
    ensures |c| == 4 * d && forall j | 0 <= j < 4 * d :: c[j] == Xor(a[j], b[j])
    ensures Split(c, d) == AddState(Split(a, d), Split(b, d), d)
    ensures Umask(c, d) == XorBlock(Umask(a, d), Umask(b, d))
  {
    var c := AddShares(Bits, a, b);
    AddSharesSlice(Bits, a, b, 0, d);
    AddSharesSlice(Bits, a, b, d, 2 * d);
    AddSharesSlice(Bits, a, b, 2 * d, 3 * d);
    AddSharesSlice(Bits, a, b, 3 * d, 4 * d);
    UmaskIsUnmask(c, d);
    UmaskIsUnmask(a, d);
    UmaskIsUnmask(b, d);
    AddStateUnmask(Split(a, d), Split(b, d), d);
    c
  }

  /** Adds w to share 0 of a sharing. */
  function XorShare0(s: seq<Word>, w: Word): seq<Word>
    requires |s| >= 1
  {
    s[0 := Xor(s[0], w)]
  }

  /** `XORLS_MASK`: a public block is added to share 0 of each lane. */
  function XorPublic(m: MaskedBlock, v: Block, d: nat): (r: MaskedBlock)
    requires HasOrder(m, d) && d >= 1
    ensures HasOrder(r, d)
    ensures r.x0[0] == Xor(m.x0[0], v.x0) && r.x1[0] == Xor(m.x1[0], v.x1)
    ensures r.x2[0] == Xor(m.x2[0], v.x2) && r.x3[0] == Xor(m.x3[0], v.x3)
    ensures forall j | 1 <= j < d :: r.x0[j] == m.x0[j] && r.x1[j] == m.x1[j] && r.x2[j] == m.x2[j] && r.x3[j] == m.x3[j]
  {
    MaskedBlock(XorShare0(m.x0, v.x0), XorShare0(m.x1, v.x1), XorShare0(m.x2, v.x2), XorShare0(m.x3, v.x3))
  }

  lemma XorShare0Unmask(s: seq<Word>, w: Word)
    requires |s| >= 1
    ensures Secret(XorShare0(s, w)) == Xor(Secret(s), w)
  {
    BitsLaws();
    FoldUpdate(Bits, s, 0, w);
  }

  /** Adding a public block to share 0 of each lane XORs it into the unmasked block. */
  lemma XorPublicUnmask(m: MaskedBlock, v: Block, d: nat)
    requires HasOrder(m, d) && d >= 1
    ensures Unmask(XorPublic(m, v, d)) == XorBlock(Unmask(m), v)
  {
    XorShare0Unmask(m.x0, v.x0);
    XorShare0Unmask(m.x1, v.x1);
    XorShare0Unmask(m.x2, v.x2);
    XorShare0Unmask(m.x3, v.x3);
  }

  /** Adding a masked key and then a public tweak adds both to the unmasked block. */
  lemma AddKeyTweakUnmask(m: MaskedBlock, key: MaskedBlock, v: Block, d: nat)
    requires HasOrder(m, d) && HasOrder(key, d) && d >= 1
    ensures Unmask(XorPublic(AddState(m, key, d), v, d)) == XorBlock(XorBlock(Unmask(m), Unmask(key)), v)
  {
    AddStateUnmask(m, key, d);
    XorPublicUnmask(AddState(m, key, d), v, d);
  }
}

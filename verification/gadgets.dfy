/**
 * The masking gadgets of the co-simulator (`add_shares`, `mult_shares`,
 * `refresh`, `refresh_block_j`, the share-wise linear layer), written over
 * any structure with an XOR-like addition and an AND-like multiplication.
 *
 * A sharing is a sequence of D elements whose sum (`Fold`) is the secret;
 * D is the length of the sharing. A gadget takes the random words it draws,
 * in drawing order, as a sequence `rs`. Module Sharing instantiates the
 * structure with 32-bit `^` and `&`.
 */
module Gadgets {
  import opened Words

  /** Addition, multiplication and zero of the share algebra. */
  datatype Ring<!T> = Ring(add: (T, T) -> T, mul: (T, T) -> T, zero: T)

  /** A marker: the laws below are instantiated only for marked elements. */
  ghost predicate Mark<T>(x: T)
  {
    true
  }

  ghost predicate AddCommutes<T(!new)>(r: Ring<T>)
  {
    forall x: T, y: T {:trigger Mark(x), Mark(y)} :: r.add(x, y) == r.add(y, x)
  }

  ghost predicate AddAssociates<T(!new)>(r: Ring<T>)
  {
    forall x: T, y: T, z: T {:trigger Mark(x), Mark(y), Mark(z)} :: r.add(r.add(x, y), z) == r.add(x, r.add(y, z))
  }

  ghost predicate AddZero<T(!new)>(r: Ring<T>)
  {
    forall x: T {:trigger Mark(x)} :: r.add(x, r.zero) == x
  }

  ghost predicate AddSelfInverse<T(!new)>(r: Ring<T>)
  {
    forall x: T {:trigger Mark(x)} :: r.add(x, x) == r.zero
  }

  ghost predicate MulDistributes<T(!new)>(r: Ring<T>)
  {
    (forall x: T, y: T, z: T {:trigger Mark(x), Mark(y), Mark(z)} :: r.mul(x, r.add(y, z)) == r.add(r.mul(x, y), r.mul(x, z))) &&
    (forall x: T, y: T, z: T {:trigger Mark(x), Mark(y), Mark(z)} :: r.mul(r.add(x, y), z) == r.add(r.mul(x, z), r.mul(y, z)))
  }

  /**
   * The laws the gadgets rely on: addition is commutative, associative, has
   * zero as neutral element and every element is its own inverse, and
   * multiplication distributes over addition on both sides. They are
   * guarded by `Mark` so that they stay out of the way of the proofs that
   * only pass them on; `Open` states them for every element.
   */
  ghost predicate Laws<T(!new)>(r: Ring<T>)
  {
    AddCommutes(r) && AddAssociates(r) && AddZero(r) && AddSelfInverse(r) && MulDistributes(r)
  }

  ghost predicate OpenLaws<T(!new)>(r: Ring<T>)
  {
    (forall x: T, y: T :: r.add(x, y) == r.add(y, x)) &&
    (forall x: T, y: T, z: T :: r.add(r.add(x, y), z) == r.add(x, r.add(y, z))) &&
    (forall x: T :: r.add(x, r.zero) == x) &&
    (forall x: T :: r.add(x, x) == r.zero) &&
    (forall x: T, y: T, z: T :: r.mul(x, r.add(y, z)) == r.add(r.mul(x, y), r.mul(x, z))) &&
    (forall x: T, y: T, z: T :: r.mul(r.add(x, y), z) == r.add(r.mul(x, z), r.mul(y, z)))
  }

  lemma Open<T(!new)>(r: Ring<T>)
    requires Laws(r)
    ensures OpenLaws(r)
  {
    forall x: T, y: T ensures r.add(x, y) == r.add(y, x) {
      assert Mark(x) && Mark(y);
    }
    forall x: T, y: T, z: T ensures r.add(r.add(x, y), z) == r.add(x, r.add(y, z)) {
      assert Mark(x) && Mark(y) && Mark(z);
    }
    forall x: T ensures r.add(x, r.zero) == x {
      assert Mark(x);
    }
    forall x: T ensures r.add(x, x) == r.zero {
      assert Mark(x);
    }
    forall x: T, y: T, z: T ensures r.mul(x, r.add(y, z)) == r.add(r.mul(x, y), r.mul(x, z)) {
      assert Mark(x) && Mark(y) && Mark(z);
    }
    forall x: T, y: T, z: T ensures r.mul(r.add(x, y), z) == r.add(r.mul(x, z), r.mul(y, z)) {
      assert Mark(x) && Mark(y) && Mark(z);
    }
  }

  // ---------------------------------------------------------------------
  // The secret of a sharing
  // ---------------------------------------------------------------------

  /** The secret a sharing stands for: the sum of all its shares. */
  function Fold<T>(r: Ring<T>, s: seq<T>): T
  {
    if |s| == 0 then r.zero else r.add(s[0], Fold(r, s[1..]))
  }

  lemma FoldTail<T>(r: Ring<T>, s: seq<T>, i: nat)
    ensures i < |s| ==> Fold(r, s[i..]) == r.add(s[i], Fold(r, s[i + 1..]))
    ensures i == |s| ==> Fold(r, s[i..]) == r.zero
  {
    if i < |s| {
      assert s[i..][1..] == s[i + 1..];
    } else if i == |s| {
      assert s[i..] == [];
    }
  }

  /** Concatenating two sharings adds their secrets. */
  lemma {:induction false} FoldAppend<T(!new)>(r: Ring<T>, a: seq<T>, b: seq<T>)
    requires Laws(r)
    ensures Fold(r, a + b) == r.add(Fold(r, a), Fold(r, b))
  {
    Open(r);
    if |a| == 0 {
      assert a + b == b;
    } else {
      assert (a + b)[1..] == a[1..] + b;
      FoldAppend(r, a[1..], b);
    }
  }

  /** Replacing share k by w changes the secret by the old share and by w. */
  lemma {:induction false} FoldSet<T(!new)>(r: Ring<T>, s: seq<T>, k: nat, w: T)
    requires Laws(r) && k < |s|
    ensures Fold(r, s[k := w]) == r.add(r.add(Fold(r, s), s[k]), w)
  {
    Open(r);
    if k == 0 {
      assert s[k := w][1..] == s[1..];
    } else {
      assert s[k := w][1..] == s[1..][k - 1 := w];
      FoldSet(r, s[1..], k - 1, w);
    }
  }

  /** Adding v to one share adds v to the secret. */
  lemma FoldUpdate<T(!new)>(r: Ring<T>, s: seq<T>, k: nat, v: T)
    requires Laws(r) && k < |s|
    ensures Fold(r, s[k := r.add(s[k], v)]) == r.add(Fold(r, s), v)
  {
    Open(r);
    FoldSet(r, s, k, r.add(s[k], v));
  }

  /** Adding the zero element to a share changes nothing. */
  lemma UpdateZero<T(!new)>(r: Ring<T>, s: seq<T>, k: nat, v: T)
    requires Laws(r) && k < |s| && v == r.zero
    ensures s[k := r.add(s[k], v)] == s
  {
    Open(r);
  }

  /** A sharing of zero elements only stands for zero. */
  lemma {:induction false} FoldZeros<T(!new)>(r: Ring<T>, s: seq<T>)
    requires Laws(r)
    requires forall i | 0 <= i < |s| :: s[i] == r.zero
    ensures Fold(r, s) == r.zero
  {
    Open(r);
    if |s| > 0 {
      FoldZeros(r, s[1..]);
    }
  }

  // ---------------------------------------------------------------------
  // add_shares
  // ---------------------------------------------------------------------

  /** `add_shares`: share-wise sum of two sharings of the same order. */
  function AddShares<T>(r: Ring<T>, a: seq<T>, b: seq<T>): (c: seq<T>)
    requires |a| == |b|
    ensures |c| == |a| && forall i | 0 <= i < |a| :: c[i] == r.add(a[i], b[i])
  {
    seq(|a|, i requires 0 <= i < |a| => r.add(a[i], b[i]))
  }

  /** A window of a share-wise sum is the share-wise sum of the windows. */
  lemma AddSharesSlice<T>(r: Ring<T>, a: seq<T>, b: seq<T>, lo: nat, hi: nat)
    requires |a| == |b| && lo <= hi <= |a|
    ensures AddShares(r, a, b)[lo..hi] == AddShares(r, a[lo..hi], b[lo..hi])
  {
  }

  lemma Interleave<T(!new)>(r: Ring<T>, a0: T, b0: T, fa: T, fb: T)
    requires Laws(r)
    ensures r.add(r.add(a0, b0), r.add(fa, fb)) == r.add(r.add(a0, fa), r.add(b0, fb))
  {
    Open(r);
  }

  /** Share-wise addition adds the secrets. */
  lemma {:induction false} AddSharesFold<T(!new)>(r: Ring<T>, a: seq<T>, b: seq<T>)
    requires Laws(r) && |a| == |b|
    ensures Fold(r, AddShares(r, a, b)) == r.add(Fold(r, a), Fold(r, b))
  {
    if |a| == 0 {
      Open(r);
    } else {
      assert AddShares(r, a, b)[1..] == AddShares(r, a[1..], b[1..]);
      AddSharesFold(r, a[1..], b[1..]);
      Interleave(r, a[0], b[0], Fold(r, a[1..]), Fold(r, b[1..]));
    }
  }

  // ---------------------------------------------------------------------
  // mult_shares: ISW multiplication
  // ---------------------------------------------------------------------

  /** The first loop of `mult_shares`: out[i] = a[i] * b[i]. */
  function Diag<T>(r: Ring<T>, a: seq<T>, b: seq<T>): (out: seq<T>)
    requires |a| == |b|
    ensures |out| == |a| && forall i | 0 <= i < |a| :: out[i] == r.mul(a[i], b[i])
  {
    seq(|a|, i requires 0 <= i < |a| => r.mul(a[i], b[i]))
  }

  /** Number of pairs i < j among m shares, counted row by row: the words `mult_shares` draws. */
  function Pairs(m: nat): nat
  {
    if m == 0 then 0 else (m - 1) + Pairs(m - 1)
  }

  /** Row by row, m shares have m(m-1)/2 pairs. */
  lemma {:induction false} PairsCount(m: nat)
    ensures Pairs(m) == m * (m - 1) / 2
  {
    if m > 0 {
      PairsCount(m - 1);
      assert m * (m - 1) == (m - 1) * (m - 2) + 2 * (m - 1);
    }
  }

  /**
   * One pass of the inner loop of `mult_shares` at column j with the drawn
   * word s: s is added to out[i] and (a[i]b[j] + s) + a[j]b[i] to out[j].
   */
  function IswColumn<T>(r: Ring<T>, a: seq<T>, b: seq<T>, i: nat, j: nat, out: seq<T>, s: T): (out': seq<T>)
    requires |a| == |b| == |out| && i < j < |a|
    ensures |out'| == |out|
  {
    var tmp := r.add(r.mul(a[i], b[j]), s);
    var sp := r.add(tmp, r.mul(a[j], b[i]));
    var out1 := out[i := r.add(out[i], s)];
    out1[j := r.add(out1[j], sp)]
  }

  /** The inner loop `for j in range(i+1, D)` of `mult_shares`, from column j: one word is drawn per column. */
  function IswRow<T>(r: Ring<T>, a: seq<T>, b: seq<T>, i: nat, j: nat, out: seq<T>, rs: seq<T>): (out': seq<T>)
    requires |a| == |b| == |out| && i < j <= |a| && |rs| == |a| - j
    ensures |out'| == |out|
    decreases |a| - j
  {
    if j == |a| then out
    else IswRow(r, a, b, i, j + 1, IswColumn(r, a, b, i, j, out, rs[0]), rs[1..])
  }

  /** One column step of the row identity, on elements alone. */
  lemma ColumnStep<T(!new)>(r: Ring<T>, fo: T, s: T, ai: T, bi: T, aj: T, bj: T, fa1: T, fb1: T)
    requires Laws(r)
    ensures r.add(r.add(r.add(r.add(fo, s), r.add(r.add(r.mul(ai, bj), s), r.mul(aj, bi))), r.mul(ai, fb1)), r.mul(fa1, bi))
         == r.add(r.add(fo, r.mul(ai, r.add(bj, fb1))), r.mul(r.add(aj, fa1), bi))
  {
    Open(r);
  }

  lemma RowBase<T(!new)>(r: Ring<T>, f: T, x: T, y: T)
    requires Laws(r)
    ensures r.add(r.add(f, r.mul(x, r.zero)), r.mul(r.zero, y)) == f
  {
    Open(r);
    assert r.mul(x, r.add(r.zero, r.zero)) == r.add(r.mul(x, r.zero), r.mul(x, r.zero));
    assert r.mul(r.add(r.zero, r.zero), y) == r.add(r.mul(r.zero, y), r.mul(r.zero, y));
  }

  /** A column adds s and (a[i]b[j] + s) + a[j]b[i] to the secret. */
  lemma IswColumnFold<T(!new)>(r: Ring<T>, a: seq<T>, b: seq<T>, i: nat, j: nat, out: seq<T>, s: T)
    requires Laws(r) && |a| == |b| == |out| && i < j < |a|
    ensures Fold(r, IswColumn(r, a, b, i, j, out, s))
         == r.add(r.add(Fold(r, out), s), r.add(r.add(r.mul(a[i], b[j]), s), r.mul(a[j], b[i])))
  {
    var out1 := out[i := r.add(out[i], s)];
    FoldUpdate(r, out, i, s);
    FoldUpdate(r, out1, j, r.add(r.add(r.mul(a[i], b[j]), s), r.mul(a[j], b[i])));
  }

  /** Row i of the inner loop adds the cross terms a[i]b[l] + a[l]b[i] of its columns l >= j to the secret, whatever words it draws. */
  lemma {:induction false} IswRowFold<T(!new)>(r: Ring<T>, a: seq<T>, b: seq<T>, i: nat, j: nat, out: seq<T>, rs: seq<T>)
    requires Laws(r) && |a| == |b| == |out| && i < j <= |a| && |rs| == |a| - j
    ensures Fold(r, IswRow(r, a, b, i, j, out, rs))
         == r.add(r.add(Fold(r, out), r.mul(a[i], Fold(r, b[j..]))), r.mul(Fold(r, a[j..]), b[i]))
    decreases |a| - j
  {
    FoldTail(r, a, j);
    FoldTail(r, b, j);
    if j == |a| {
      RowBase(r, Fold(r, out), a[i], b[i]);
    } else {
      var out2 := IswColumn(r, a, b, i, j, out, rs[0]);
      IswRowFold(r, a, b, i, j + 1, out2, rs[1..]);
      IswColumnFold(r, a, b, i, j, out, rs[0]);
      ColumnStep(r, Fold(r, out), rs[0], a[i], b[i], a[j], b[j], Fold(r, a[j + 1..]), Fold(r, b[j + 1..]));
    }
  }

  /** The cross terms a[k]b[l] + a[l]b[k] of all pairs k < l with k >= i. */
  function Cross<T>(r: Ring<T>, a: seq<T>, b: seq<T>, i: nat): T
    requires |a| == |b| && i <= |a|
    decreases |a| - i
  {
    if i == |a| then r.zero
    else r.add(r.add(r.mul(a[i], Fold(r, b[i + 1..])), r.mul(Fold(r, a[i + 1..]), b[i])), Cross(r, a, b, i + 1))
  }

  /** The outer loop `for i in range(D)` of `mult_shares`, from row i: row i draws D - 1 - i words. */
  function IswRows<T>(r: Ring<T>, a: seq<T>, b: seq<T>, i: nat, out: seq<T>, rs: seq<T>): (out': seq<T>)
    requires |a| == |b| == |out| && i <= |a| && |rs| == Pairs(|a| - i)
    ensures |out'| == |out|
    decreases |a| - i
  {
    if i == |a| then out
    else
      var n := |a| - (i + 1);
      IswRows(r, a, b, i + 1, IswRow(r, a, b, i, i + 1, out, rs[..n]), rs[n..])
  }

  lemma RowsStep<T(!new)>(r: Ring<T>, fo: T, m1: T, m2: T, c: T)
    requires Laws(r)
    ensures r.add(r.add(r.add(fo, m1), m2), c) == r.add(fo, r.add(r.add(m1, m2), c))
    ensures r.add(fo, r.zero) == fo
  {
    Open(r);
  }

  /** Rows i.. of the outer loop add all their cross terms to the secret. */
  lemma {:induction false} IswRowsFold<T(!new)>(r: Ring<T>, a: seq<T>, b: seq<T>, i: nat, out: seq<T>, rs: seq<T>)
    requires Laws(r) && |a| == |b| == |out| && i <= |a| && |rs| == Pairs(|a| - i)
    ensures Fold(r, IswRows(r, a, b, i, out, rs)) == r.add(Fold(r, out), Cross(r, a, b, i))
    decreases |a| - i
  {
    if i == |a| {
      RowsStep(r, Fold(r, out), r.zero, r.zero, r.zero);
    } else {
      var n := |a| - (i + 1);
      var row := IswRow(r, a, b, i, i + 1, out, rs[..n]);
      IswRowFold(r, a, b, i, i + 1, out, rs[..n]);
      IswRowsFold(r, a, b, i + 1, row, rs[n..]);
      RowsStep(r, Fold(r, out), r.mul(a[i], Fold(r, b[i + 1..])), r.mul(Fold(r, a[i + 1..]), b[i]), Cross(r, a, b, i + 1));
    }
  }

  /** The sum of the diagonal terms a[k]b[k] for k >= i. */
  function DiagSum<T>(r: Ring<T>, a: seq<T>, b: seq<T>, i: nat): T
    requires |a| == |b| && i <= |a|
    decreases |a| - i
  {
    if i == |a| then r.zero else r.add(r.mul(a[i], b[i]), DiagSum(r, a, b, i + 1))
  }

  lemma {:induction false} DiagFold<T>(r: Ring<T>, a: seq<T>, b: seq<T>, i: nat)
    requires |a| == |b| && i <= |a|
    ensures Fold(r, Diag(r, a, b)[i..]) == DiagSum(r, a, b, i)
    decreases |a| - i
  {
    FoldTail(r, Diag(r, a, b), i);
    if i < |a| {
      DiagFold(r, a, b, i + 1);
    }
  }

  /** One row step of the diagonal-plus-cross-terms identity, on elements alone. */
  lemma DiagonalStep<T(!new)>(r: Ring<T>, ai: T, bi: T, ds: T, c: T, fa1: T, fb1: T)
    requires Laws(r)
    requires r.add(ds, c) == r.mul(fa1, fb1)
    ensures r.add(r.add(r.mul(ai, bi), ds), r.add(r.add(r.mul(ai, fb1), r.mul(fa1, bi)), c))
         == r.mul(r.add(ai, fa1), r.add(bi, fb1))
  {
    Open(r);
  }

  lemma DiagonalBase<T(!new)>(r: Ring<T>)
    requires Laws(r)
    ensures r.add(r.zero, r.zero) == r.mul(r.zero, r.zero)
  {
    Open(r);
    assert r.mul(r.zero, r.add(r.zero, r.zero)) == r.add(r.mul(r.zero, r.zero), r.mul(r.zero, r.zero));
  }

  /** The diagonal and the cross terms together make the product of the two secrets. */
  lemma {:induction false} DiagCross<T(!new)>(r: Ring<T>, a: seq<T>, b: seq<T>, i: nat)
    requires Laws(r) && |a| == |b| && i <= |a|
    ensures r.add(DiagSum(r, a, b, i), Cross(r, a, b, i)) == r.mul(Fold(r, a[i..]), Fold(r, b[i..]))
    decreases |a| - i
  {
    FoldTail(r, a, i);
    FoldTail(r, b, i);
    if i == |a| {
      DiagonalBase(r);
    } else {
      DiagCross(r, a, b, i + 1);
      DiagonalStep(r, a[i], b[i], DiagSum(r, a, b, i + 1), Cross(r, a, b, i + 1), Fold(r, a[i + 1..]), Fold(r, b[i + 1..]));
    }
  }

  /**
   * `mult_shares`: ISW multiplication of two sharings of order D, drawing
   * D(D-1)/2 words: first out[i] = a[i]b[i], then the pairs row by row.
   */
  function MultShares<T>(r: Ring<T>, a: seq<T>, b: seq<T>, rs: seq<T>): (out: seq<T>)
    requires |a| == |b| && |rs| == |a| * (|a| - 1) / 2
    ensures |out| == |a|
  {
    PairsCount(|a|);
    IswRows(r, a, b, 0, Diag(r, a, b), rs)
  }

  /** Whatever words it draws, ISW multiplication yields a sharing of the product of the two secrets. */
  lemma MultSharesFold<T(!new)>(r: Ring<T>, a: seq<T>, b: seq<T>, rs: seq<T>)
    requires Laws(r) && |a| == |b| && |rs| == |a| * (|a| - 1) / 2
    ensures Fold(r, MultShares(r, a, b, rs)) == r.mul(Fold(r, a), Fold(r, b))
  {
    PairsCount(|a|);
    DiagCross(r, a, b, 0);
    DiagFold(r, a, b, 0);
    IswRowsFold(r, a, b, 0, Diag(r, a, b), rs);
    assert a[0..] == a && b[0..] == b && Diag(r, a, b)[0..] == Diag(r, a, b);
  }

  // ---------------------------------------------------------------------
  // refresh, refresh_block_j
  // ---------------------------------------------------------------------

  /** Share i of a block: the drawn word w is added to shares i and (i + j) mod D. */
  function RefreshStep<T>(r: Ring<T>, s: seq<T>, j: nat, i: nat, w: T): (s': seq<T>)
    requires i < |s|
    ensures |s'| == |s|
  {
    var s1 := s[i := r.add(s[i], w)];
    var k := (i + j) % |s|;
    s1[k := r.add(s1[k], w)]
  }

  /** `refresh_block_j` from share i on: one word is drawn per share. */
  function RefreshBlock<T>(r: Ring<T>, s: seq<T>, j: nat, i: nat, rs: seq<T>): (s': seq<T>)
    requires i <= |s| && |rs| == |s| - i
    ensures |s'| == |s|
    decreases |s| - i
  {
    if i == |s| then s
    else RefreshBlock(r, RefreshStep(r, s, j, i, rs[0]), j, i + 1, rs[1..])
  }

  lemma SelfCancel<T(!new)>(r: Ring<T>, f: T, w: T)
    requires Laws(r)
    ensures r.add(r.add(f, w), w) == f
  {
    Open(r);
  }

  /** A step adds its word twice, so the secret is unchanged. */
  lemma RefreshStepFold<T(!new)>(r: Ring<T>, s: seq<T>, j: nat, i: nat, w: T)
    requires Laws(r) && i < |s|
    ensures Fold(r, RefreshStep(r, s, j, i, w)) == Fold(r, s)
  {
    var s1 := s[i := r.add(s[i], w)];
    FoldUpdate(r, s, i, w);
    FoldUpdate(r, s1, (i + j) % |s|, w);
    SelfCancel(r, Fold(r, s), w);
  }

  /** Every word of a block is added to two shares, so the secret is unchanged. */
  lemma {:induction false} RefreshBlockFold<T(!new)>(r: Ring<T>, s: seq<T>, j: nat, i: nat, rs: seq<T>)
    requires Laws(r) && i <= |s| && |rs| == |s| - i
    ensures Fold(r, RefreshBlock(r, s, j, i, rs)) == Fold(r, s)
    decreases |s| - i
  {
    if i < |s| {
      RefreshStepFold(r, s, j, i, rs[0]);
      RefreshBlockFold(r, RefreshStep(r, s, j, i, rs[0]), j, i + 1, rs[1..]);
    }
  }

  /** With zero words (PRGON off) a block changes no share. */
  lemma {:induction false} RefreshBlockZero<T(!new)>(r: Ring<T>, s: seq<T>, j: nat, i: nat, rs: seq<T>)
    requires Laws(r) && i <= |s| && |rs| == |s| - i
    requires forall n | 0 <= n < |rs| :: rs[n] == r.zero
    ensures RefreshBlock(r, s, j, i, rs) == s
    decreases |s| - i
  {
    if i < |s| {
      var s1 := s[i := r.add(s[i], rs[0])];
      UpdateZero(r, s, i, rs[0]);
      UpdateZero(r, s1, (i + j) % |s|, rs[0]);
      assert RefreshStep(r, s, j, i, rs[0]) == s;
      RefreshBlockZero(r, s, j, i + 1, rs[1..]);
    }
  }

  /** Words `refresh` draws on a sharing of order d: d below four shares, 2d up to eight, none when it fails. */
  function RefreshDraws(d: nat): nat
  {
    if d < 4 then d else if d < 9 then 2 * d else 0
  }

  /**
   * `refresh`: one block at distance 1 below four shares, blocks at distances
   * 1 and 3 up to eight shares, and an error from nine shares on.
   */
  function Refresh<T>(r: Ring<T>, s: seq<T>, rs: seq<T>): (res: Result<seq<T>>)
    requires |rs| == RefreshDraws(|s|)
    ensures res.Failure? <==> |s| >= 9
    ensures res.Failure? ==> res.error == RefreshOrderUnsupported(|s|)
    ensures res.Success? ==> |res.value| == |s|
  {
    if |s| < 4 then
      Success(RefreshBlock(r, s, 1, 0, rs))
    else if |s| < 9 then
      Success(RefreshBlock(r, RefreshBlock(r, s, 1, 0, rs[..|s|]), 3, 0, rs[|s|..]))
    else
      Failure(RefreshOrderUnsupported(|s|))
  }

  /** A successful refresh keeps the secret whatever words it draws, and with zero words it keeps every share. */
  lemma RefreshFold<T(!new)>(r: Ring<T>, s: seq<T>, rs: seq<T>)
    requires Laws(r) && |rs| == RefreshDraws(|s|)
    ensures Refresh(r, s, rs).Success? ==> Fold(r, Refresh(r, s, rs).value) == Fold(r, s)
    ensures (forall n | 0 <= n < |rs| :: rs[n] == r.zero) && Refresh(r, s, rs).Success? ==> Refresh(r, s, rs).value == s
  {
    if |s| < 4 {
      RefreshBlockFold(r, s, 1, 0, rs);
      if forall n | 0 <= n < |rs| :: rs[n] == r.zero {
        RefreshBlockZero(r, s, 1, 0, rs);
      }
    } else if |s| < 9 {
      var first := RefreshBlock(r, s, 1, 0, rs[..|s|]);
      RefreshBlockFold(r, s, 1, 0, rs[..|s|]);
      RefreshBlockFold(r, first, 3, 0, rs[|s|..]);
      if forall n | 0 <= n < |rs| :: rs[n] == r.zero {
        RefreshBlockZero(r, s, 1, 0, rs[..|s|]);
        RefreshBlockZero(r, s, 3, 0, rs[|s|..]);
      }
    }
  }

  // ---------------------------------------------------------------------
  // Share-wise linear maps (the masked L-box)
  // ---------------------------------------------------------------------

  /** g is additive in its pair of arguments and maps zero to zero. */
  ghost predicate Additive<T(!new)>(r: Ring<T>, g: (T, T) -> T)
  {
    g(r.zero, r.zero) == r.zero &&
    forall x: T, y: T, x': T, y': T {:trigger Mark(x), Mark(y), Mark(x'), Mark(y')} ::
      g(r.add(x, x'), r.add(y, y')) == r.add(g(x, y), g(x', y'))
  }

  /** g applied to the pairs of shares of the same index. */
  function MapPairs<T>(g: (T, T) -> T, xs: seq<T>, ys: seq<T>): (zs: seq<T>)
    requires |xs| == |ys|
    ensures |zs| == |xs| && forall i | 0 <= i < |xs| :: zs[i] == g(xs[i], ys[i])
  {
    seq(|xs|, i requires 0 <= i < |xs| => g(xs[i], ys[i]))
  }

  lemma AdditiveAt<T(!new)>(r: Ring<T>, g: (T, T) -> T, x: T, y: T, x': T, y': T)
    requires Additive(r, g)
    ensures g(r.add(x, x'), r.add(y, y')) == r.add(g(x, y), g(x', y'))
  {
    assert Mark(x) && Mark(y) && Mark(x') && Mark(y');
  }

  /** An additive map applied share by share maps the secrets. */
  lemma {:induction false} MapPairsFold<T(!new)>(r: Ring<T>, g: (T, T) -> T, xs: seq<T>, ys: seq<T>)
    requires Additive(r, g) && |xs| == |ys|
    ensures Fold(r, MapPairs(g, xs, ys)) == g(Fold(r, xs), Fold(r, ys))
  {
    if |xs| > 0 {
      assert MapPairs(g, xs, ys)[1..] == MapPairs(g, xs[1..], ys[1..]);
      MapPairsFold(r, g, xs[1..], ys[1..]);
      AdditiveAt(r, g, xs[0], ys[0], Fold(r, xs[1..]), Fold(r, ys[1..]));
    }
  }

  // ---------------------------------------------------------------------
  // Running sums: the accumulators of umask, mask and simple_refresh
  // ---------------------------------------------------------------------

  /** The sum a loop `acc = acc + s[i]` computes from zero, left to right. */
  function RunningSum<T>(r: Ring<T>, s: seq<T>): T
  {
    if |s| == 0 then r.zero else r.add(RunningSum(r, s[..|s| - 1]), s[|s| - 1])
  }

  /** Extending a window of a sequence by one element adds that element to its running sum. */
  lemma RunningSumExtend<T>(r: Ring<T>, k: seq<T>, a: nat, b: nat)
    requires a <= b < |k|
    ensures RunningSum(r, k[a..b + 1]) == r.add(RunningSum(r, k[a..b]), k[b])
  {
    assert k[a..b + 1][..b - a] == k[a..b];
  }

  lemma FoldSingle<T(!new)>(r: Ring<T>, x: T)
    requires Laws(r)
    ensures Fold(r, [x]) == x
  {
    Open(r);
    assert [x][1..] == [];
  }

  /** Summing left to right gives the secret. */
  lemma {:induction false} RunningSumIsFold<T(!new)>(r: Ring<T>, s: seq<T>)
    requires Laws(r)
    ensures RunningSum(r, s) == Fold(r, s)
  {
    if |s| > 0 {
      var init := s[..|s| - 1];
      RunningSumIsFold(r, init);
      assert s == init + [s[|s| - 1]];
      FoldAppend(r, init, [s[|s| - 1]]);
      FoldSingle(r, s[|s| - 1]);
    }
  }

  /**
   * The accumulator of `mask`: it starts at the secret k and each drawn
   * word w is added in front of it (`acc = w + acc`).
   */
  function MaskSum<T>(r: Ring<T>, k: T, rs: seq<T>): T
  {
    if |rs| == 0 then k else r.add(rs[|rs| - 1], MaskSum(r, k, rs[..|rs| - 1]))
  }

  lemma Cancel<T(!new)>(r: Ring<T>, f: T, x: T, m: T)
    requires Laws(r)
    ensures r.add(r.add(f, x), r.add(x, m)) == r.add(f, m)
  {
    Open(r);
    assert r.add(r.add(f, x), r.add(x, m)) == r.add(f, r.add(r.add(x, x), m));
  }

  /** The drawn words and the accumulator together sum to the secret. */
  lemma {:induction false} MaskSumFold<T(!new)>(r: Ring<T>, k: T, rs: seq<T>)
    requires Laws(r)
    ensures r.add(Fold(r, rs), MaskSum(r, k, rs)) == k
  {
    if |rs| == 0 {
      Open(r);
    } else {
      var init := rs[..|rs| - 1];
      var w := rs[|rs| - 1];
      MaskSumFold(r, k, init);
      assert rs == init + [w];
      FoldAppend(r, init, [w]);
      FoldSingle(r, w);
      Cancel(r, Fold(r, init), w, MaskSum(r, k, init));
    }
  }

  /** A sharing made of drawn words followed by the `mask` accumulator stands for k. */
  lemma MaskedLaneFold<T(!new)>(r: Ring<T>, k: T, rs: seq<T>)
    requires Laws(r)
    ensures Fold(r, rs + [MaskSum(r, k, rs)]) == k
  {
    FoldAppend(r, rs, [MaskSum(r, k, rs)]);
    FoldSingle(r, MaskSum(r, k, rs));
    MaskSumFold(r, k, rs);
  }

  /** With zero words, the accumulator of `mask` is the secret itself. */
  lemma {:induction false} MaskSumZeros<T(!new)>(r: Ring<T>, k: T, rs: seq<T>)
    requires Laws(r)
    requires forall i | 0 <= i < |rs| :: rs[i] == r.zero
    ensures MaskSum(r, k, rs) == k
  {
    if |rs| > 0 {
      Open(r);
      MaskSumZeros(r, k, rs[..|rs| - 1]);
    }
  }

  /**
   * The words `simple_refresh` adds to one lane: the drawn words, then
   * their running sum on the last share. Together they stand for zero.
   */
  lemma RefreshMaskFold<T(!new)>(r: Ring<T>, rs: seq<T>)
    requires Laws(r)
    ensures Fold(r, rs + [RunningSum(r, rs)]) == r.zero
  {
    FoldAppend(r, rs, [RunningSum(r, rs)]);
    FoldSingle(r, RunningSum(r, rs));
    RunningSumIsFold(r, rs);
    Open(r);
  }

  // ---------------------------------------------------------------------
  // One lane of mask and simple_refresh
  // ---------------------------------------------------------------------

  /** One lane of `mask`: the D - 1 drawn words, then the accumulator. */
  function MaskLane<T>(r: Ring<T>, k: T, rs: seq<T>): (lane: seq<T>)
    ensures |lane| == |rs| + 1
    ensures forall j | 0 <= j < |rs| :: lane[j] == rs[j]
    ensures lane[|rs|] == MaskSum(r, k, rs)
  {
    rs + [MaskSum(r, k, rs)]
  }

  /** A lane of `mask` stands for the masked word; with zero words its last share is that word. */
  lemma MaskLaneFold<T(!new)>(r: Ring<T>, k: T, rs: seq<T>)
    requires Laws(r)
    ensures Fold(r, MaskLane(r, k, rs)) == k
    ensures (forall j | 0 <= j < |rs| :: rs[j] == r.zero) ==> MaskLane(r, k, rs)[|rs|] == k
  {
    MaskedLaneFold(r, k, rs);
    if forall j | 0 <= j < |rs| :: rs[j] == r.zero {
      MaskSumZeros(r, k, rs);
    }
  }

  /**
   * One lane of `simple_refresh`: the D - 1 drawn words are added to shares
   * 0 .. D - 2 and their running sum to share D - 1.
   */
  function RefreshLane<T>(r: Ring<T>, s: seq<T>, ws: seq<T>): (out: seq<T>)
    requires |s| == |ws| + 1
    ensures |out| == |s|
    ensures forall j | 0 <= j < |ws| :: out[j] == r.add(s[j], ws[j])
    ensures out[|ws|] == r.add(s[|ws|], RunningSum(r, ws))
  {
    AddShares(r, s, ws + [RunningSum(r, ws)])
  }

  /** The words `simple_refresh` adds to a lane sum to zero, so the secret is kept. */
  lemma RefreshLaneFold<T(!new)>(r: Ring<T>, s: seq<T>, ws: seq<T>)
    requires Laws(r) && |s| == |ws| + 1
    ensures Fold(r, RefreshLane(r, s, ws)) == Fold(r, s)
  {
    AddSharesFold(r, s, ws + [RunningSum(r, ws)]);
    RefreshMaskFold(r, ws);
    Open(r);
  }

  /** With zero words a lane of `simple_refresh` is left as it is. */
  lemma RefreshLaneZero<T(!new)>(r: Ring<T>, s: seq<T>, ws: seq<T>)
    requires Laws(r) && |s| == |ws| + 1
    requires forall j | 0 <= j < |ws| :: ws[j] == r.zero
    ensures RefreshLane(r, s, ws) == s
  {
    RunningSumIsFold(r, ws);
    FoldZeros(r, ws);
    Open(r);
  }
}

/**
 * Masking and refreshing of 128-bit keys (`mask`, `simple_refresh`): a key
 * is a flat vector of 4·D words, lane i shared by words i·D .. i·D + D - 1
 * (module MaskedState). Lane i of either operation takes the drawn words
 * i·(D-1) .. i·(D-1) + D - 2, in the order the loops draw them.
 */
module Keys {
  import opened Words
  import opened Gadgets
  import opened Sharing
  import opened Prng
  import opened MaskedState

  // ---------------------------------------------------------------------
  // mask
  // ---------------------------------------------------------------------

  /** The four lanes of a masked key: D - 1 drawn words, then the accumulator. */
  function MaskLanes(k: Block, ws: seq<Word>, d: nat): (m: MaskedBlock)
    requires d >= 1 && |ws| == 4 * (d - 1)
    ensures HasOrder(m, d)
    ensures Unmask(m) == k
  {
    var e := d - 1;
    MaskLaneSecret(k.x0, ws[0..e]);
    MaskLaneSecret(k.x1, ws[e..2 * e]);
    MaskLaneSecret(k.x2, ws[2 * e..3 * e]);
    MaskLaneSecret(k.x3, ws[3 * e..4 * e]);
    MaskedBlock(MaskLane(Bits, k.x0, ws[0..e]), MaskLane(Bits, k.x1, ws[e..2 * e]),
                MaskLane(Bits, k.x2, ws[2 * e..3 * e]), MaskLane(Bits, k.x3, ws[3 * e..4 * e]))
  }

  lemma MaskLaneSecret(w: Word, rs: seq<Word>)
    ensures Secret(MaskLane(Bits, w, rs)) == w
  {
    BitsLaws();
    MaskLaneFold(Bits, w, rs);
  }

  /** The lane of a key masked with zero words only: D - 1 zero shares, then the key word. */
  function PlainLane(w: Word, d: nat): (lane: seq<Word>)
    requires d >= 1
    ensures |lane| == d
  {
    Zeros(d - 1) + [w]
  }

  /** With zero words only, `mask` puts the key word in the last share. */
  lemma MaskLaneZeros(w: Word, rs: seq<Word>)
    requires forall j | 0 <= j < |rs| :: rs[j] == 0
    ensures MaskLane(Bits, w, rs) == PlainLane(w, |rs| + 1)
  {
    BitsLaws();
    MaskLaneFold(Bits, w, rs);
  }

  /**
   * `mask(k, D, PRGON)`: the key block k shared as 4·D words. The words
   * `np.random.randint` draws are the parameter `rs`; with PRGON off it
   * draws from [0, 1), so every drawn word is zero.
   */
  function Mask(k: Block, d: nat, rs: seq<Word>, prgOn: bool): (muk: seq<Word>)
    requires d >= 1 && |rs| == 4 * (d - 1)
    ensures |muk| == 4 * d
    ensures Umask(muk, d) == k
    ensures !prgOn ==> Split(muk, d) == MaskedBlock(PlainLane(k.x0, d), PlainLane(k.x1, d), PlainLane(k.x2, d), PlainLane(k.x3, d))
  {
    var e := d - 1;
    var ws := if prgOn then rs else Zeros(4 * e);
    var m := MaskLanes(k, ws, d);
    SplitFlatten(m, d);
    UmaskIsUnmask(Flatten(m, d), d);
    MaskLanesZeros(k, d);
    Flatten(m, d)
  }

  lemma MaskLanesZeros(k: Block, d: nat)
    requires d >= 1
    ensures MaskLanes(k, Zeros(4 * (d - 1)), d)
         == MaskedBlock(PlainLane(k.x0, d), PlainLane(k.x1, d), PlainLane(k.x2, d), PlainLane(k.x3, d))
  {
    var e := d - 1;
    var ws := Zeros(4 * e);
    MaskLaneZeros(k.x0, ws[0..e]);
    MaskLaneZeros(k.x1, ws[e..2 * e]);
    MaskLaneZeros(k.x2, ws[2 * e..3 * e]);
    MaskLaneZeros(k.x3, ws[3 * e..4 * e]);
  }

  // ---------------------------------------------------------------------
  // simple_refresh
  // ---------------------------------------------------------------------

  /** The lanes of a refreshed key: lane i absorbs the drawn words i·(D-1) .. i·(D-1) + D - 2. */
  function RefreshLanes(m: MaskedBlock, ws: seq<Word>, d: nat): (r: MaskedBlock)
    requires HasOrder(m, d) && d >= 1 && |ws| == 4 * (d - 1)
    ensures HasOrder(r, d)
  {
    var e := d - 1;
    MaskedBlock(RefreshLane(Bits, m.x0, ws[0..e]), RefreshLane(Bits, m.x1, ws[e..2 * e]),
                RefreshLane(Bits, m.x2, ws[2 * e..3 * e]), RefreshLane(Bits, m.x3, ws[3 * e..4 * e]))
  }

  /** A refresh keeps the secret of every lane. */
  lemma RefreshLanesUnmask(m: MaskedBlock, ws: seq<Word>, d: nat)
    requires HasOrder(m, d) && d >= 1 && |ws| == 4 * (d - 1)
    ensures Unmask(RefreshLanes(m, ws, d)) == Unmask(m)
  {
    var e := d - 1;
    RefreshLaneSecret(m.x0, ws[0..e]);
    RefreshLaneSecret(m.x1, ws[e..2 * e]);
    RefreshLaneSecret(m.x2, ws[2 * e..3 * e]);
    RefreshLaneSecret(m.x3, ws[3 * e..4 * e]);
  }

  /** With zero words a refresh changes no share. */
  lemma RefreshLanesZero(m: MaskedBlock, ws: seq<Word>, d: nat)
    requires HasOrder(m, d) && d >= 1 && |ws| == 4 * (d - 1)
    ensures (forall j | 0 <= j < |ws| :: ws[j] == 0) ==> RefreshLanes(m, ws, d) == m
  {
    var e := d - 1;
    if forall j | 0 <= j < |ws| :: ws[j] == 0 {
      RefreshLaneKeeps(m.x0, ws, 0, e);
      RefreshLaneKeeps(m.x1, ws, e, 2 * e);
      RefreshLaneKeeps(m.x2, ws, 2 * e, 3 * e);
      RefreshLaneKeeps(m.x3, ws, 3 * e, 4 * e);
    }
  }

  lemma RefreshLaneKeeps(s: seq<Word>, ws: seq<Word>, a: nat, b: nat)
    requires a <= b <= |ws| && |s| == b - a + 1
    requires forall j | 0 <= j < |ws| :: ws[j] == 0
    ensures RefreshLane(Bits, s, ws[a..b]) == s
  {
    BitsLaws();
    RefreshLaneZero(Bits, s, ws[a..b]);
  }

  /** One lane of a refresh keeps its secret. */
  lemma RefreshLaneSecret(s: seq<Word>, ws: seq<Word>)
    requires |s| == |ws| + 1
    ensures Secret(RefreshLane(Bits, s, ws)) == Secret(s)
  {
    BitsLaws();
    RefreshLaneFold(Bits, s, ws);
  }

  /**
   * The loop body of `simple_refresh` for all four lanes, given the 4·(D-1)
   * words it draws: shares 0 .. D - 2 of lane i are XORed with its words and
   * share D - 1 with their XOR. The host and the board compute the same.
   */
  function RefreshWords(key: seq<Word>, ws: seq<Word>, d: nat): (out: seq<Word>)
    requires d >= 1 && |key| == 4 * d && |ws| == 4 * (d - 1)
    ensures |out| == 4 * d
    ensures Split(out, d) == RefreshLanes(Split(key, d), ws, d)
    ensures Umask(out, d) == Umask(key, d)
    ensures (forall j | 0 <= j < |ws| :: ws[j] == 0) ==> out == key
  {
    var m := RefreshLanes(Split(key, d), ws, d);
    SplitFlatten(m, d);
    RefreshLanesUnmask(Split(key, d), ws, d);
    RefreshLanesZero(Split(key, d), ws, d);
    UmaskIsUnmask(Flatten(m, d), d);
    UmaskIsUnmask(key, d);
    FlattenSplit(key, d);
    Flatten(m, d)
  }

  /**
   * `simple_refresh(out, inp, seed)` on the host: 4·(D-1) one-word draws
   * from the tape. It keeps the key's secret, reads the next 4·(D-1) words
   * of the tape, and with PRGON off returns the key unchanged.
   */
  function SimpleRefresh(p: Params, inp: seq<Word>, t: Tape): (r: (seq<Word>, Tape))
    requires p.d >= 1 && |inp| == 4 * p.d
    ensures |r.0| == 4 * p.d
    ensures Umask(r.0, p.d) == Umask(inp, p.d)
    ensures r.0 == RefreshWords(inp, GetRandomTape(p, t, 4 * (p.d - 1)).0, p.d)
    ensures r.1 == Skip(p.shadow, t, 4 * (p.d - 1))
    ensures !p.prgOn ==> r.0 == inp
  {
    var drawn := Draws(p, t, 4 * (p.d - 1));
    DrawsAtOnce(p, t, 4 * (p.d - 1));
    (RefreshWords(inp, drawn.0, p.d), drawn.1)
  }
}

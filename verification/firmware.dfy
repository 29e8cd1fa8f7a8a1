/**
 * The board's side of a co-simulation session (`main.c`): the buffers the
 * UART callback fills, the hooks that run when a seed or a key has
 * arrived, and the per-encryption update of PRNG state, nonce and key in
 * the batch loop. The encryption itself is not part of this model.
 *
 * The board's random generator (`init_rng`, `fill_table`, `get_random`) is
 * defined in a header that is not part of this model; it is modelled as
 * the reference stream of module Prng: after `init_rng(row); fill_table()`
 * the j-th `get_random()` returns `StreamWord(shadow, Seeded(row), j)`.
 */
module Firmware {
  import opened Words
  import opened Prng
  import opened Keys
  import opened Protocol
  import opened MaskedState

  /**
   * The board's globals: the last header and the buffer it selected,
   * `waiting_for`, `prng_state`, `seed`, `npub`, `k`, `initial_key`, `N`
   * and `fixed_key`.
   */
  datatype Board = Board(header: seq<Byte>, dest: Slot, waiting: bool, core: CoreState, seed: Word4,
                         npub: Word4, k: seq<Word>, initialKey: seq<Word>, batch: Word, fixedKey: Word)

  /** The board's masked keys have 4·D words. */
  predicate Keyed(b: Board, d: nat)
  {
    |b.k| == 4 * d && |b.initialKey| == 4 * d && |b.header| == 4
  }

  /**
   * The globals as `main` leaves them before the first interrupt: zeroed,
   * except `N = 1` and `fixed_key = 1`, and waiting for a header. In C
   * `dest` starts as a null pointer; here it starts as `Ciphertext`, which
   * differs only for a first header whose code is 8 or more.
   */
  function Boot(d: nat): (b: Board)
    ensures Keyed(b, d) && !b.waiting && b.batch == 1 && b.fixedKey == 1
    ensures forall i | 0 <= i < 4 * d :: b.k[i] == 0 && b.initialKey[i] == 0
    ensures b.header == [0, 0, 0, 0] && b.seed == ZeroRow && b.npub == ZeroRow
    ensures forall j | 0 <= j < 4 :: b.core[j] == ZeroRow
  {
    var zeros := seq(4 * d, i => 0);
    Board([0, 0, 0, 0], Ciphertext, false, [ZeroRow, ZeroRow, ZeroRow, ZeroRow], ZeroRow, ZeroRow, zeros, zeros, 1, 1)
  }

  /** The inputs of one encryption: the masked key, the row that seeds its generator, the nonce. */
  datatype Inputs = Inputs(key: seq<Word>, seed: Word4, nonce: Word4)

  /** `init_rng(row); fill_table();` followed by l calls of `get_random()`. */
  function BoardRandom(shadow: CoreState -> CoreState, row: Word4, l: nat): (ws: seq<Word>)
    ensures |ws| == l
  {
    StreamWords(shadow, Seeded(row), 0, l)
  }

  /**
   * The key after an encryption: 4·D fresh words if `fixed_key == 0`, and
   * otherwise `simple_refresh(k, initial_key)`, both from the generator
   * seeded by row 2 of the updated PRNG state.
   */
  function BoardNextKey(shadow: CoreState -> CoreState, d: nat, initialKey: seq<Word>, row: Word4, fixedKey: Word): (k: seq<Word>)
    requires d >= 1 && |initialKey| == 4 * d
    ensures |k| == 4 * d
    ensures fixedKey == 0 ==> k == BoardRandom(shadow, row, 4 * d)
    ensures fixedKey != 0 ==> k == RefreshWords(initialKey, BoardRandom(shadow, row, 4 * (d - 1)), d)
  {
    if fixedKey == 0 then BoardRandom(shadow, row, 4 * d)
    else RefreshWords(initialKey, BoardRandom(shadow, row, 4 * (d - 1)), d)
  }

  // ---------------------------------------------------------------------
  // Receive callback
  // ---------------------------------------------------------------------

  /**
   * The header branch of the callback (`waiting_for == 0`): byte 0 selects
   * the destination buffer and the board then waits for the data.
   */
  function OnHeader(b: Board, h: seq<Byte>): (r: Board)
    requires !b.waiting && |h| == 4
    ensures r.waiting && r.header == h
    ensures h[0] < 8 ==> Code(r.dest) == h[0]
    ensures h[0] >= 8 ==> r.dest == b.dest
    ensures r == b.(header := h, dest := r.dest, waiting := true)
  {
    b.(header := h, dest := Dispatch(h[0], b.dest), waiting := true)
  }

  /**
   * The data transfer itself: the words land in the selected buffer. The
   * contents of the ciphertext, associated-data and message buffers are
   * not part of this model.
   */
  function Store(b: Board, ws: seq<Word>, d: nat): (r: Board)
    requires Fits(b.dest, ws, d)
    ensures Keyed(b, d) ==> Keyed(r, d)
    ensures r.header == b.header && r.waiting == b.waiting && r.core == b.core && r.initialKey == b.initialKey
    ensures b.dest == Nonce ==> r == b.(npub := ws)
    ensures b.dest == Seed ==> r == b.(seed := ws)
    ensures b.dest == Key ==> r == b.(k := ws)
    ensures b.dest == Batch ==> r == b.(batch := ws[0])
    ensures b.dest == FixedKey ==> r == b.(fixedKey := ws[0])
    ensures b.dest in {Ciphertext, AssociatedData, Message} ==> r == b
  {
    match b.dest
    case Nonce => b.(npub := ws)
    case Seed => b.(seed := ws)
    case Key => b.(k := ws)
    case Batch => b.(batch := ws[0])
    case FixedKey => b.(fixedKey := ws[0])
    case _ => b
  }

  /**
   * The hooks at the head of the callback once data has arrived: a seed
   * (code 5) resets the PRNG state to the seed above three zero rows, a key
   * (code 4) becomes the key that fixed-key refreshes start from.
   */
  function AfterReceipt(b: Board): (r: Board)
    requires |b.header| == 4
    ensures r.header == b.header && r.waiting == b.waiting && r.k == b.k
    ensures r.initialKey == b.initialKey || r.initialKey == b.k
    ensures b.header[0] == 5 ==> r == b.(core := Seeded(b.seed))
    ensures b.header[0] == 4 ==> r == b.(initialKey := b.k)
    ensures b.header[0] != 4 && b.header[0] != 5 ==> r == b
  {
    if b.header[0] == 5 then b.(core := Seeded(b.seed))
    else if b.header[0] == 4 then b.(initialKey := b.k)
    else b
  }

  // ---------------------------------------------------------------------
  // The encryption batch
  // ---------------------------------------------------------------------

  /**
   * `count` turns of the batch loop: record the inputs of the encryption,
   * call `shadow` once, take row 1 as the next nonce and derive the next
   * key from row 2.
   */
  function EncryptLoop(shadow: CoreState -> CoreState, d: nat, b: Board, count: nat): (r: (seq<Inputs>, Board))
    requires d >= 1 && Keyed(b, d)
    ensures |r.0| == count && Keyed(r.1, d)
    ensures r.1 == b.(core := r.1.core, npub := r.1.npub, k := r.1.k)
    decreases count
  {
    if count == 0 then ([], b)
    else
      var input := Inputs(b.k, b.core[0], b.npub);
      var core := shadow(b.core);
      var b1 := b.(core := core, npub := core[1], k := BoardNextKey(shadow, d, b.initialKey, core[2], b.fixedKey));
      var rest := EncryptLoop(shadow, d, b1, count - 1);
      ([input] + rest.0, rest.1)
  }

  /** The key of encryption i of a batch that starts from board b. */
  function BatchKey(shadow: CoreState -> CoreState, d: nat, b: Board, i: nat): (k: seq<Word>)
    requires d >= 1 && Keyed(b, d)
    ensures |k| == 4 * d
  {
    if i == 0 then b.k else BoardNextKey(shadow, d, b.initialKey, Iter(shadow, i, b.core)[2], b.fixedKey)
  }

  /**
   * Closed form of the batch loop: encryption i sees the PRNG state after
   * i shadow calls (row 0 seeds its generator, row 1 is its nonce), and
   * the board ends with the state after `count` calls.
   */
  lemma {:induction false} EncryptLoopClosed(shadow: CoreState -> CoreState, d: nat, b: Board, count: nat)
    requires d >= 1 && Keyed(b, d)
    ensures var r := EncryptLoop(shadow, d, b, count);
            && (forall i | 0 <= i < count :: r.0[i].key == BatchKey(shadow, d, b, i))
            && (forall i | 0 <= i < count :: r.0[i].seed == Iter(shadow, i, b.core)[0])
            && (forall i | 0 <= i < count :: r.0[i].nonce == (if i == 0 then b.npub else Iter(shadow, i, b.core)[1]))
            && r.1.core == Iter(shadow, count, b.core)
            && r.1.k == BatchKey(shadow, d, b, count)
            && (count > 0 ==> r.1.npub == Iter(shadow, count, b.core)[1])
    decreases count
  {
    hide BoardNextKey, BoardRandom, RefreshWords, StreamWords;
    if count > 0 {
      var core := shadow(b.core);
      var b1 := b.(core := core, npub := core[1], k := BoardNextKey(shadow, d, b.initialKey, core[2], b.fixedKey));
      EncryptLoopClosed(shadow, d, b1, count - 1);
      var r := EncryptLoop(shadow, d, b, count);
      var rest := EncryptLoop(shadow, d, b1, count - 1);
      assert r.0 == [Inputs(b.k, b.core[0], b.npub)] + rest.0;
      forall j: nat
        ensures Iter(shadow, j, core) == Iter(shadow, j + 1, b.core)
        ensures BatchKey(shadow, d, b1, j) == BatchKey(shadow, d, b, j + 1)
      {
        IterShift(shadow, j, b.core);
      }
      forall i | 0 <= i < count
        ensures r.0[i].key == BatchKey(shadow, d, b, i)
        ensures r.0[i].seed == Iter(shadow, i, b.core)[0]
        ensures r.0[i].nonce == (if i == 0 then b.npub else Iter(shadow, i, b.core)[1])
      {
        if i > 0 {
          assert r.0[i] == rest.0[i - 1];
        }
      }
    }
  }

  /**
   * The encryption branch of the callback: `N` turns of the loop, then the
   * last key becomes the key that the next batch's refreshes start from.
   */
  function EncryptBatch(shadow: CoreState -> CoreState, d: nat, b: Board): (r: (seq<Inputs>, Board))
    requires d >= 1 && Keyed(b, d)
    ensures |r.0| == Count(b.batch) && Keyed(r.1, d)
    ensures r.1.initialKey == r.1.k
  {
    var loop := EncryptLoop(shadow, d, b, Count(b.batch));
    (loop.0, loop.1.(initialKey := loop.1.k))
  }

  /**
   * The data branch of the callback (`waiting_for == 1`): store the words,
   * run the receipt hooks, encrypt a batch if byte 1 of the header is 1,
   * and wait for the next header. Decryption (flag 2) is not part of this
   * model and leaves the modelled state as it is.
   */
  function OnData(shadow: CoreState -> CoreState, d: nat, b: Board, ws: seq<Word>): (r: (seq<Inputs>, Board))
    requires d >= 1 && Keyed(b, d) && b.waiting && Fits(b.dest, ws, d)
    ensures Keyed(r.1, d) && !r.1.waiting
    ensures b.header[1] != 1 ==> r.0 == []
  {
    var stored := AfterReceipt(Store(b, ws, d));
    if b.header[1] == 1 then
      var batch := EncryptBatch(shadow, d, stored);
      (batch.0, batch.1.(waiting := false))
    else ([], stored.(waiting := false))
  }

  /** After a key or a batch, every fixed-key refresh of the next batch starts from the key in use. */
  lemma KeyHookSyncs(shadow: CoreState -> CoreState, d: nat, b: Board, ws: seq<Word>)
    requires d >= 1 && Keyed(b, d) && b.waiting && Fits(b.dest, ws, d)
    requires b.header[0] == 4 || b.header[1] == 1
    ensures OnData(shadow, d, b, ws).1.initialKey == OnData(shadow, d, b, ws).1.k
  {
  }

  /**
   * In fixed-key mode every key of a batch, and the key handed to the next
   * batch, unmasks to the batch's starting key when that key is the one
   * refreshes start from.
   */
  lemma FixedKeyBatchUnmask(shadow: CoreState -> CoreState, d: nat, b: Board, i: nat)
    requires d >= 1 && Keyed(b, d) && b.fixedKey != 0 && b.initialKey == b.k
    ensures Umask(BatchKey(shadow, d, b, i), d) == Umask(b.k, d)
  {
  }
}

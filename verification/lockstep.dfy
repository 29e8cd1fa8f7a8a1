/**
 * Host and board in lock-step. The host's prediction is only useful if,
 * after every transfer and every batch, its mirror of the board holds the
 * PRNG state, nonce, key, batch size and fixed-key flag the board holds,
 * and if the tables `unroll_inputs` returns are the inputs the board's
 * encryptions actually used. The board has no PRGON switch: the host's
 * tape must be on for the two to agree.
 */
module LockStep {
  import opened Words
  import opened Prng
  import opened MaskedState
  import opened Keys
  import opened Protocol
  import opened TopLevel
  import opened Firmware

  /**
   * The host mirrors the board: same PRNG state, nonce, key, batch size and
   * flag, and the board's refreshes start from the key in use.
   */
  predicate Mirrors(h: Host, b: Board)
  {
    && h.core == b.core && h.npub == b.npub && h.key == b.k && b.initialKey == b.k
    && h.batch == b.batch && h.fixed == b.fixedKey
  }

  /** A tape seeded from a row reads what the board's generator seeded from that row returns. */
  lemma FreshTapeIsBoardRandom(p: Params, row: Word4, l: nat)
    requires p.prgOn
    ensures GetRandomTape(p, Uninit(row), l).0 == BoardRandom(p.shadow, row, l)
  {
    FreshDrawIsStream(p.shadow, row, l);
  }

  /** With the corrected mode test the host derives the board's next key. */
  lemma NextKeyMatches(p: Params, base: seq<Word>, row: Word4, f: Word)
    requires p.prgOn && p.d >= 1 && |base| == 4 * p.d
    ensures NextKey(p, base, row, FixedKeyMode(f)) == BoardNextKey(p.shadow, p.d, base, row, f)
  {
    FreshTapeIsBoardRandom(p, row, 4 * p.d);
    FreshTapeIsBoardRandom(p, row, 4 * (p.d - 1));
  }

  /** Encryption i of a batch: the host's prediction is the board's input. */
  lemma PredictionIsInput(p: Params, h: Host, b: Board, i: nat)
    requires p.prgOn && p.d >= 1 && Keyed(b, p.d) && Mirrors(h, b)
    ensures PredictedKey(p, h, FixedKeyMode(h.fixed), i) == BatchKey(p.shadow, p.d, b, i)
    ensures PredictedSeed(p, h, i) == Iter(p.shadow, i, b.core)[0]
    ensures PredictedNonce(p, h, i) == (if i == 0 then b.npub else Iter(p.shadow, i, b.core)[1])
  {
    if i > 0 {
      NextKeyMatches(p, h.key, Iter(p.shadow, i, h.core)[2], h.fixed);
    }
  }

  /**
   * One batch in lock-step: the board's encryption inputs are the rows of
   * the host's tables, and afterwards the host (in the state `unroll_inputs`
   * leaves it) still mirrors the board.
   */
  lemma BatchLockStep(p: Params, h: Host, b: Board)
    requires p.prgOn && p.d >= 1 && Keyed(b, p.d) && Mirrors(h, b) && Count(b.batch) >= 1
    ensures var n := Count(b.batch);
            var run := EncryptBatch(p.shadow, p.d, b);
            && (forall i | 0 <= i < n ::
                  run.0[i] == Inputs(PredictedKeys(p, h, FixedKeyMode(h.fixed), n)[i],
                                     PredictedSeeds(p, h, n)[i], PredictedNonces(p, h, n)[i]))
            && Mirrors(HostAfter(p, h, FixedKeyMode(h.fixed), n), run.1)
  {
    var n := Count(b.batch);
    EncryptLoopClosed(p.shadow, p.d, b, n);
    BatchInputs(p, h, b, n);
    BatchEnd(p, h, b, n);
  }

  /** Row i of the host's tables is the input of encryption i of the board's batch loop. */
  lemma BatchInputs(p: Params, h: Host, b: Board, n: nat)
    requires p.prgOn && p.d >= 1 && Keyed(b, p.d) && Mirrors(h, b)
    ensures forall i | 0 <= i < n ::
              EncryptLoop(p.shadow, p.d, b, n).0[i]
              == Inputs(PredictedKeys(p, h, FixedKeyMode(h.fixed), n)[i], PredictedSeeds(p, h, n)[i], PredictedNonces(p, h, n)[i])
  {
    hide EncryptLoop, PredictedKeys, PredictedSeeds, PredictedNonces, PredictedKey, PredictedSeed, PredictedNonce;
    hide BatchKey, Iter, NextKey, BoardNextKey;
    var fixed := FixedKeyMode(h.fixed);
    EncryptLoopClosed(p.shadow, p.d, b, n);
    forall i | 0 <= i < n
      ensures EncryptLoop(p.shadow, p.d, b, n).0[i]
              == Inputs(PredictedKeys(p, h, fixed, n)[i], PredictedSeeds(p, h, n)[i], PredictedNonces(p, h, n)[i])
    {
      PredictedRows(p, h, fixed, n, i);
      PredictionIsInput(p, h, b, i);
    }
  }

  /** After n >= 1 turns the board holds what the host stores at the end of `unroll_inputs(n)`. */
  lemma BatchEnd(p: Params, h: Host, b: Board, n: nat)
    requires p.prgOn && p.d >= 1 && Keyed(b, p.d) && Mirrors(h, b) && n >= 1
    ensures var loop := EncryptLoop(p.shadow, p.d, b, n);
            Mirrors(HostAfter(p, h, FixedKeyMode(h.fixed), n), loop.1.(initialKey := loop.1.k))
  {
    EncryptLoopClosed(p.shadow, p.d, b, n);
    NextKeyMatches(p, h.key, Iter(p.shadow, n, h.core)[2], h.fixed);
    hide EncryptLoop, NextKey, BoardNextKey;
  }

  /**
   * The board after the header `send_data_uart` writes for a transfer of
   * ws to buffer s: waiting for the data, with s selected and the flag kept.
   */
  function Announce(b: Board, s: Slot, encFlag: Byte, ws: seq<Word>): (r: Board)
    requires !b.waiting
    ensures r == OnHeader(b, Header(Name(s), encFlag, 4 * |ws|))
    ensures r.dest == s && |r.header| == 4 && r.header[0] == Code(s) && r.header[1] == encFlag && r.waiting
    ensures r.k == b.k && r.initialKey == b.initialKey
    ensures r == b.(header := r.header, dest := s, waiting := true)
  {
    HeaderNamesSlot(s, encFlag, 4 * |ws|, b.dest);
    OnHeader(b, Header(Name(s), encFlag, 4 * |ws|))
  }

  /**
   * A whole session step, as the host drives it: `set_data` (which sends
   * the header and the data), and when the flag asks for an encryption,
   * `unroll_inputs(N)`. The tables are the inputs the board used, and
   * host and board stay in lock-step. The data is at least one word and
   * below 64 KiB, so that the length the header carries is its length.
   */
  method Transfer(p: Params, h: Host, b: Board, s: Slot, ws: seq<Word>, encFlag: Byte)
    returns (h': Host, b': Board, keys: seq<seq<Word>>, seeds: seq<Word4>, nonces: seq<Word4>)
    requires p.prgOn && p.d >= 1 && Keyed(b, p.d) && !b.waiting && Mirrors(h, b) && Fits(s, ws, p.d)
    requires 1 <= |ws| && 4 * |ws| < 65536
    requires encFlag == 1 ==> Count(SetData(h, s, ws, p.d).batch) >= 1
    ensures Mirrors(h', b') && Keyed(b', p.d) && !b'.waiting
    ensures var inputs := OnData(p.shadow, p.d, Announce(b, s, encFlag, ws), ws).0;
            && |keys| == |inputs| && |seeds| == |inputs| && |nonces| == |inputs|
            && forall i | 0 <= i < |inputs| :: inputs[i] == Inputs(keys[i], seeds[i], nonces[i])
  {
    hide SetData, OnHeader, Header, OnData, PredictedKeys, PredictedSeeds, PredictedNonces, HostAfter, Count;
    var run := OnData(p.shadow, p.d, Announce(b, s, encFlag, ws), ws);
    h' := SetData(h, s, ws, p.d);
    b' := run.1;
    if encFlag == 1 {
      TransferBatch(p, h, b, s, ws, encFlag);
      keys, seeds, nonces, h' := UnrollInputs(p, h', Count(h'.batch));
    } else {
      TransferPlain(p, h, b, s, ws, encFlag);
      keys, seeds, nonces := [], [], [];
    }
  }

  /** A transfer without the encryption flag: no encryption, and the host still mirrors the board. */
  lemma TransferPlain(p: Params, h: Host, b: Board, s: Slot, ws: seq<Word>, encFlag: Byte)
    requires p.d >= 1 && Keyed(b, p.d) && !b.waiting && Mirrors(h, b) && Fits(s, ws, p.d) && encFlag != 1
    ensures var run := OnData(p.shadow, p.d, Announce(b, s, encFlag, ws), ws);
            run.0 == [] && Mirrors(SetData(h, s, ws, p.d), run.1)
  {
    hide OnHeader, Header, AfterReceipt, Store, SetData, Count, Announce, OnData, EncryptBatch;
    var b1 := Announce(b, s, encFlag, ws);
    ReceiptMirrors(p, h, b, s, ws, encFlag);
    OnDataRuns(p.shadow, p.d, b1, ws);
  }

  /**
   * A transfer with the encryption flag: the board's batch used the rows of
   * the host's tables and ends where `unroll_inputs` leaves the host.
   */
  lemma TransferBatch(p: Params, h: Host, b: Board, s: Slot, ws: seq<Word>, encFlag: Byte)
    requires p.prgOn && p.d >= 1 && Keyed(b, p.d) && !b.waiting && Mirrors(h, b) && Fits(s, ws, p.d)
    requires encFlag == 1 && Count(SetData(h, s, ws, p.d).batch) >= 1
    ensures var run := OnData(p.shadow, p.d, Announce(b, s, encFlag, ws), ws);
            var h1 := SetData(h, s, ws, p.d);
            var n := Count(h1.batch);
            && |run.0| == n
            && (forall i | 0 <= i < n ::
                  run.0[i] == Inputs(PredictedKeys(p, h1, FixedKeyMode(h1.fixed), n)[i],
                                     PredictedSeeds(p, h1, n)[i], PredictedNonces(p, h1, n)[i]))
            && Mirrors(HostAfter(p, h1, FixedKeyMode(h1.fixed), n), run.1)
  {
    hide OnHeader, Header, AfterReceipt, Store, SetData, Count, Announce, OnData, EncryptBatch;
    hide PredictedKeys, PredictedSeeds, PredictedNonces, HostAfter;
    var b1 := Announce(b, s, encFlag, ws);
    ReceiptMirrors(p, h, b, s, ws, encFlag);
    OnDataRuns(p.shadow, p.d, b1, ws);
    BatchLockStep(p, SetData(h, s, ws, p.d), AfterReceipt(Store(b1, ws, p.d)));
  }

  /** The data branch encrypts a batch from the stored state exactly when the flag is 1. */
  lemma OnDataRuns(shadow: CoreState -> CoreState, d: nat, b: Board, ws: seq<Word>)
    requires d >= 1 && Keyed(b, d) && b.waiting && Fits(b.dest, ws, d)
    ensures var stored := AfterReceipt(Store(b, ws, d));
            && Keyed(stored, d)
            && (b.header[1] == 1 ==> OnData(shadow, d, b, ws).0 == EncryptBatch(shadow, d, stored).0)
            && (b.header[1] == 1 ==> OnData(shadow, d, b, ws).1 == EncryptBatch(shadow, d, stored).1.(waiting := false))
            && (b.header[1] != 1 ==> OnData(shadow, d, b, ws).1 == stored.(waiting := false))
  {
  }

  /**
   * The header names the buffer the host meant and carries its flag, and
   * once the data is stored and the receipt hooks have run, the host's
   * `set_data` still mirrors the board.
   */
  lemma ReceiptMirrors(p: Params, h: Host, b: Board, s: Slot, ws: seq<Word>, encFlag: Byte)
    requires p.d >= 1 && Keyed(b, p.d) && !b.waiting && Mirrors(h, b) && Fits(s, ws, p.d)
    ensures var b1 := Announce(b, s, encFlag, ws);
            && b1.dest == s && b1.header[1] == encFlag && b1.waiting && Keyed(b1, p.d)
            && Keyed(AfterReceipt(Store(b1, ws, p.d)), p.d)
            && Mirrors(SetData(h, s, ws, p.d), AfterReceipt(Store(b1, ws, p.d)))
  {
    var b1 := Announce(b, s, encFlag, ws);
    hide OnHeader, Header;
    StoreMirrors(p.d, h, b1, s, ws);
  }

  /** Storing the words and running the hooks on the board does what `set_data` does on the host. */
  lemma StoreMirrors(d: nat, h: Host, b: Board, s: Slot, ws: seq<Word>)
    requires Keyed(b, d) && Mirrors(h, b) && Fits(s, ws, d) && b.dest == s && b.header[0] == Code(s)
    ensures Keyed(AfterReceipt(Store(b, ws, d)), d)
    ensures Mirrors(SetData(h, s, ws, d), AfterReceipt(Store(b, ws, d)))
  {
    match s
    case Seed =>
      assert AfterReceipt(Store(b, ws, d)) == b.(seed := ws, core := Seeded(ws));
    case Key =>
      assert AfterReceipt(Store(b, ws, d)) == b.(k := ws, initialKey := ws);
    case Nonce =>
      assert AfterReceipt(Store(b, ws, d)) == b.(npub := ws);
    case Batch =>
      assert AfterReceipt(Store(b, ws, d)) == b.(batch := ws[0]);
    case FixedKey =>
      assert AfterReceipt(Store(b, ws, d)) == b.(fixedKey := ws[0]);
    case _ =>
      assert AfterReceipt(Store(b, ws, d)) == b;
  }

  // ---------------------------------------------------------------------
  // Opening a session
  // ---------------------------------------------------------------------

  /**
   * One `set_data` with flag 0, as the board sees it: the header, then the
   * data. The selected buffer takes the words, the receipt hooks run, and
   * nothing else changes.
   */
  function Deliver(shadow: CoreState -> CoreState, d: nat, b: Board, s: Slot, ws: seq<Word>): (r: Board)
    requires d >= 1 && Keyed(b, d) && !b.waiting && Fits(s, ws, d)
    ensures Keyed(r, d) && !r.waiting
    ensures r.batch == (if s == Batch then ws[0] else b.batch)
    ensures r.fixedKey == (if s == FixedKey then ws[0] else b.fixedKey)
    ensures r.core == (if s == Seed then Seeded(ws) else b.core)
    ensures r.npub == (if s == Nonce then ws else b.npub)
    ensures r.k == (if s == Key then ws else b.k)
    ensures r.initialKey == (if s == Key then ws else b.initialKey)
  {
    DeliverFields(shadow, d, b, s, ws);
    OnData(shadow, d, Announce(b, s, 0, ws), ws).1
  }

  /** The fields a flag-0 transfer leaves on the board. */
  lemma DeliverFields(shadow: CoreState -> CoreState, d: nat, b: Board, s: Slot, ws: seq<Word>)
    requires d >= 1 && Keyed(b, d) && !b.waiting && Fits(s, ws, d)
    ensures var r := OnData(shadow, d, Announce(b, s, 0, ws), ws).1;
            && Keyed(r, d) && !r.waiting
            && r.batch == (if s == Batch then ws[0] else b.batch)
            && r.fixedKey == (if s == FixedKey then ws[0] else b.fixedKey)
            && r.core == (if s == Seed then Seeded(ws) else b.core)
            && r.npub == (if s == Nonce then ws else b.npub)
            && r.k == (if s == Key then ws else b.k)
            && r.initialKey == (if s == Key then ws else b.initialKey)
  {
    hide OnHeader, Header, OnData, EncryptBatch;
    var b1 := Announce(b, s, 0, ws);
    OnDataRuns(shadow, d, b1, ws);
    hide Announce;
    var stored := AfterReceipt(Store(b1, ws, d));
    match s
    case Seed =>
      assert stored == b1.(seed := ws, core := Seeded(ws));
    case Key =>
      assert stored == b1.(k := ws, initialKey := ws);
    case Nonce =>
      assert stored == b1.(npub := ws);
    case Batch =>
      assert stored == b1.(batch := ws[0]);
    case FixedKey =>
      assert stored == b1.(fixedKey := ws[0]);
    case _ =>
      assert stored == b1;
  }

  /**
   * The opening of a capture session: `N`, `f`, `s`, `npub`, `k`, `m`, `ad`
   * are sent with flag 0, each through `set_data` on the host and the
   * header-then-data callback on the board. From any board waiting for a
   * header, the zeroed globals at boot included, the host then mirrors the
   * board, which holds the values sent.
   */
  method OpenSession(p: Params, h: Host, b: Board, n: Word, f: Word, seed: Word4, npub: Word4, k: seq<Word>, m: seq<Word>, ad: seq<Word>)
    returns (h': Host, b': Board)
    requires p.d >= 1 && Keyed(b, p.d) && !b.waiting && |k| == 4 * p.d
    requires Fits(Message, m, p.d) && Fits(AssociatedData, ad, p.d)
    ensures Mirrors(h', b') && Keyed(b', p.d) && !b'.waiting
    ensures b'.batch == n && b'.fixedKey == f && b'.core == Seeded(seed) && b'.npub == npub && b'.k == k
  {
    b' := OpenBoard(p, b, n, f, seed, npub, k, m, ad);
    h' := OpenHost(p, h, n, f, seed, npub, k, m, ad);
  }

  /** The board's side of the session opening: the values sent, with the key hook run. */
  method OpenBoard(p: Params, b: Board, n: Word, f: Word, seed: Word4, npub: Word4, k: seq<Word>, m: seq<Word>, ad: seq<Word>)
    returns (b': Board)
    requires p.d >= 1 && Keyed(b, p.d) && !b.waiting && |k| == 4 * p.d
    requires Fits(Message, m, p.d) && Fits(AssociatedData, ad, p.d)
    ensures Keyed(b', p.d) && !b'.waiting && b'.initialKey == k
    ensures b'.batch == n && b'.fixedKey == f && b'.core == Seeded(seed) && b'.npub == npub && b'.k == k
  {
    hide Deliver, Keyed, Seeded;
    b' := Deliver(p.shadow, p.d, b, Batch, [n]);
    b' := Deliver(p.shadow, p.d, b', FixedKey, [f]);
    b' := Deliver(p.shadow, p.d, b', Seed, seed);
    b' := Deliver(p.shadow, p.d, b', Nonce, npub);
    b' := OpenBoardKey(p, b', k, m, ad);
  }

  /** The last three transfers of the opening: the key, whose hook sets `initial_key`, then `m` and `ad`. */
  method OpenBoardKey(p: Params, b: Board, k: seq<Word>, m: seq<Word>, ad: seq<Word>)
    returns (b': Board)
    requires p.d >= 1 && Keyed(b, p.d) && !b.waiting && |k| == 4 * p.d
    requires Fits(Message, m, p.d) && Fits(AssociatedData, ad, p.d)
    ensures Keyed(b', p.d) && !b'.waiting && b'.initialKey == k && b'.k == k
    ensures b'.batch == b.batch && b'.fixedKey == b.fixedKey && b'.core == b.core && b'.npub == b.npub
  {
    hide Deliver, Keyed, Seeded;
    b' := Deliver(p.shadow, p.d, b, Key, k);
    b' := Deliver(p.shadow, p.d, b', Message, m);
    b' := Deliver(p.shadow, p.d, b', AssociatedData, ad);
  }

  /** The host's side of the session opening: `set_data` stores the values sent. */
  method OpenHost(p: Params, h: Host, n: Word, f: Word, seed: Word4, npub: Word4, k: seq<Word>, m: seq<Word>, ad: seq<Word>)
    returns (h': Host)
    requires p.d >= 1 && |k| == 4 * p.d
    requires Fits(Message, m, p.d) && Fits(AssociatedData, ad, p.d)
    ensures h'.batch == n && h'.fixed == f && h'.core == Seeded(seed) && h'.npub == npub && h'.key == k
  {
    hide SetData, Seeded;
    h' := SetData(h, Batch, [n], p.d);
    h' := SetData(h', FixedKey, [f], p.d);
    h' := SetData(h', Seed, seed, p.d);
    h' := SetData(h', Nonce, npub, p.d);
    h' := OpenHostKey(p, h', k, m, ad);
  }

  /** The last three `set_data` calls of the opening: the key, then `m` and `ad`. */
  method OpenHostKey(p: Params, h: Host, k: seq<Word>, m: seq<Word>, ad: seq<Word>)
    returns (h': Host)
    requires p.d >= 1 && |k| == 4 * p.d
    requires Fits(Message, m, p.d) && Fits(AssociatedData, ad, p.d)
    ensures h'.key == k && h'.batch == h.batch && h'.fixed == h.fixed && h'.core == h.core && h'.npub == h.npub
  {
    hide SetData, Seeded;
    h' := SetData(h, Key, k, p.d);
    h' := SetData(h', Message, m, p.d);
    h' := SetData(h', AssociatedData, ad, p.d);
  }

  // ---------------------------------------------------------------------
  // The mode test as written
  // ---------------------------------------------------------------------

  /** A `shadow` that maps every state to ones in row 0 and zeros below. */
  function OnesAbove(c: CoreState): (r: CoreState)
    ensures r[0] == [1, 1, 1, 1] && r[1] == ZeroRow && r[2] == ZeroRow
  {
    [[1, 1, 1, 1], ZeroRow, ZeroRow, ZeroRow]
  }

  /**
   * With flag 2 the board is in fixed-key mode (`fixed_key != 0`) but the
   * host as written (`_f == 1`) predicts random keys: for D = 1 and a
   * `shadow` that fills row 0 with ones, the board's second encryption
   * uses the zero key it was given while the host predicts a key that
   * unmasks to all ones.
   */
  lemma AsWrittenDesyncs()
    ensures var p := Params(1, true, OnesAbove);
            var h := Host(ZeroRow, Seeded(ZeroRow), ZeroRow, [0, 0, 0, 0], 2, 2);
            var b := Board([0, 0, 0, 0], Ciphertext, false, Seeded(ZeroRow), ZeroRow, ZeroRow, [0, 0, 0, 0], [0, 0, 0, 0], 2, 2);
            && Mirrors(h, b) && Keyed(b, 1)
            && EncryptBatch(OnesAbove, 1, b).0[1].key == [0, 0, 0, 0]
            && PredictedKey(p, h, HostFixedAsWritten(h.fixed), 1) == [1, 1, 1, 1]
            && Umask(PredictedKey(p, h, HostFixedAsWritten(h.fixed), 1), 1) != Umask(EncryptBatch(OnesAbove, 1, b).0[1].key, 1)
  {
    var p := Params(1, true, OnesAbove);
    var h := Host(ZeroRow, Seeded(ZeroRow), ZeroRow, [0, 0, 0, 0], 2, 2);
    var b := Board([0, 0, 0, 0], Ciphertext, false, Seeded(ZeroRow), ZeroRow, ZeroRow, [0, 0, 0, 0], [0, 0, 0, 0], 2, 2);
    hide EncryptBatch, PredictedKey, Umask;
    BoardKeepsKey(b);
    HostPredictsOnes(p, h);
    UmaskOneShare(1);
    UmaskOneShare(0);
  }

  /**
   * For the flags the session actually sends, 0 (random keys) and 1 (the
   * default of both sides), the test as written agrees with the board's,
   * so the host as written (`UnrollInputsAsWritten`) is in lock-step too.
   */
  lemma AsWrittenLockStep(p: Params, h: Host, b: Board)
    requires p.prgOn && p.d >= 1 && Keyed(b, p.d) && Mirrors(h, b) && Count(b.batch) >= 1 && h.fixed <= 1
    ensures HostFixedAsWritten(h.fixed) == FixedKeyMode(h.fixed)
    ensures var n := Count(b.batch);
            var run := EncryptBatch(p.shadow, p.d, b);
            && (forall i | 0 <= i < n ::
                  run.0[i] == Inputs(PredictedKeys(p, h, HostFixedAsWritten(h.fixed), n)[i],
                                     PredictedSeeds(p, h, n)[i], PredictedNonces(p, h, n)[i]))
            && Mirrors(HostAfter(p, h, HostFixedAsWritten(h.fixed), n), run.1)
  {
    hide EncryptBatch, PredictedKeys, PredictedSeeds, PredictedNonces, HostAfter, Count;
    BatchLockStep(p, h, b);
  }

  /**
   * For every `shadow` and every flag of 2 or more, encryption i >= 1 of a
   * batch: the host as written predicts 4·D fresh words of the generator
   * seeded by row 2, while the board refreshes the batch's key with the
   * first 4·(D - 1) of them. The two keys unmask alike exactly when the
   * fresh words happen to unmask to the batch's key.
   */
  lemma AsWrittenKeyForFlag(p: Params, h: Host, b: Board, i: nat)
    requires p.prgOn && p.d >= 1 && Keyed(b, p.d) && Mirrors(h, b) && h.fixed >= 2 && i >= 1
    ensures var row := Iter(p.shadow, i, h.core)[2];
            var hostKey := PredictedKey(p, h, HostFixedAsWritten(h.fixed), i);
            var boardKey := BatchKey(p.shadow, p.d, b, i);
            && hostKey == BoardRandom(p.shadow, row, 4 * p.d)
            && boardKey == RefreshWords(b.k, BoardRandom(p.shadow, row, 4 * (p.d - 1)), p.d)
            && (Umask(hostKey, p.d) == Umask(boardKey, p.d) <==> Umask(BoardRandom(p.shadow, row, 4 * p.d), p.d) == Umask(b.k, p.d))
  {
    hide GetRandomTape, BoardRandom, RefreshWords, Umask, SimpleRefresh, Iter;
    FreshTapeIsBoardRandom(p, Iter(p.shadow, i, h.core)[2], 4 * p.d);
    FixedKeyBatchUnmask(p.shadow, p.d, b, i);
  }

  /** The board in fixed-key mode: its second encryption refreshes the zero key with no drawn word. */
  lemma BoardKeepsKey(b: Board)
    requires b == Board([0, 0, 0, 0], Ciphertext, false, Seeded(ZeroRow), ZeroRow, ZeroRow, [0, 0, 0, 0], [0, 0, 0, 0], 2, 2)
    ensures |EncryptBatch(OnesAbove, 1, b).0| == 2
    ensures EncryptBatch(OnesAbove, 1, b).0[1].key == [0, 0, 0, 0]
  {
    hide StreamWords, StreamWord, FillTable, Pull, Draw, RefillBlock, AtPos, OnesAbove;
    EncryptLoopClosed(OnesAbove, 1, b, 2);
    var row := Iter(OnesAbove, 1, b.core)[2];
    assert row == ZeroRow;
    assert BatchKey(OnesAbove, 1, b, 1) == RefreshWords([0, 0, 0, 0], BoardRandom(OnesAbove, row, 0), 1);
  }

  /** The host as written takes flag 2 for random-key mode and predicts four fresh words, all ones. */
  lemma HostPredictsOnes(p: Params, h: Host)
    requires p == Params(1, true, OnesAbove) && h == Host(ZeroRow, Seeded(ZeroRow), ZeroRow, [0, 0, 0, 0], 2, 2)
    ensures PredictedKey(p, h, HostFixedAsWritten(h.fixed), 1) == [1, 1, 1, 1]
  {
    hide StreamWords, StreamWord, FillTable, Pull, Draw, RefillBlock, AtPos, OnesAbove;
    var row := Iter(OnesAbove, 1, h.core)[2];
    assert row == ZeroRow;
    FreshTapeIsBoardRandom(p, row, 4);
    OnesStream(row);
  }

  /** With one share a key unmasks to itself. */
  lemma UmaskOneShare(w: Word)
    ensures Umask([w, w, w, w], 1) == Block(w, w, w, w)
  {
    UmaskIsUnmask([w, w, w, w], 1);
    OneShare(w);
  }

  /** The first four words of the generator under `OnesAbove` are ones. */
  lemma OnesStream(row: Word4)
    ensures BoardRandom(OnesAbove, row, 4) == [1, 1, 1, 1]
  {
    hide StreamWord, StreamWords;
    StreamWordsAt(OnesAbove, Seeded(row), 0, 4);
    forall j | 0 <= j < 4
      ensures StreamWord(OnesAbove, Seeded(row), j) == 1
    {
      OnesWord(row, j);
    }
  }

  lemma OnesWord(row: Word4, j: nat)
    requires j < 4
    ensures StreamWord(OnesAbove, Seeded(row), j) == 1
  {
    hide Iter, OnesAbove;
    StreamWordIs(OnesAbove, Seeded(row), j, 0, j);
    assert FillTable(OnesAbove, Seeded(row)).1[j] == OnesAbove(Seeded(row))[j / 4][j % 4];
  }

  /** A one-share lane is its own secret. */
  lemma OneShare(w: Word)
    ensures Sharing.Secret([w]) == w
  {
    Sharing.SecretCons([w]);
  }
}

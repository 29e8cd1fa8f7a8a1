/**
 * The host's mirror of the board (`SpookTopLevel`): the fields `set_data`
 * stores, and `unroll_inputs`, which replays the board's per-encryption
 * update to predict the key, seed and nonce of every encryption of a batch.
 */
module TopLevel {
  import opened Words
  import opened Prng
  import opened MaskedState
  import opened Keys
  import opened Protocol

  /** Batch size and fixed-key flag right after construction (`_N`, `_f`); the board starts with the same. */
  const DefaultBatch: Word := 1
  const DefaultFixed: Word := 1

  /**
   * The fields of a `SpookTopLevel` object the prediction reads and
   * writes: `_seed`, `_prng_state`, `_npub`, `_k` (as 4·D words), `_N`, `_f`.
   */
  datatype Host = Host(seed: Word4, core: CoreState, npub: Word4, key: seq<Word>, batch: Word, fixed: Word)

  /** `set_data(data, "s", ..)`: the new seed, and a PRNG state with the seed in row 0 and zero rows below. */
  function SetSeed(h: Host, data: Word4): (r: Host)
    ensures r.core[0] == data && forall i | 1 <= i < 4 :: r.core[i] == ZeroRow
    ensures r == h.(seed := data, core := r.core)
  {
    h.(seed := data, core := Seeded(data))
  }

  /** `set_data(data, "k", ..)`: the masked key as given. */
  function SetKey(h: Host, data: seq<Word>): (r: Host)
    ensures r.key == data && r == h.(key := r.key)
  {
    h.(key := data)
  }

  /** `set_data(data, "npub", ..)`. */
  function SetNonce(h: Host, data: Word4): (r: Host)
    ensures r.npub == data && r == h.(npub := r.npub)
  {
    h.(npub := data)
  }

  /** `set_data(data, "N", ..)`: the first word of the data. */
  function SetBatch(h: Host, data: seq<Word>): (r: Host)
    requires |data| >= 1
    ensures r.batch == data[0] && r == h.(batch := r.batch)
  {
    h.(batch := data[0])
  }

  /** `set_data(data, "f", ..)`: the first word of the data. */
  function SetFixed(h: Host, data: seq<Word>): (r: Host)
    requires |data| >= 1
    ensures r.fixed == data[0] && r == h.(fixed := r.fixed)
  {
    h.(fixed := data[0])
  }

  /**
   * `set_data(data, dest, ..)` on the fields above, for the buffer `dest`
   * names; the ciphertext, associated data and message are not modelled.
   */
  function SetData(h: Host, s: Slot, ws: seq<Word>, d: nat): (r: Host)
    requires Fits(s, ws, d)
    ensures r.seed == (if s == Seed then ws else h.seed)
    ensures r.core == (if s == Seed then Seeded(ws) else h.core)
    ensures r.npub == (if s == Nonce then ws else h.npub)
    ensures r.key == (if s == Key then ws else h.key)
    ensures r.batch == (if s == Batch then ws[0] else h.batch)
    ensures r.fixed == (if s == FixedKey then ws[0] else h.fixed)
    ensures |h.key| == 4 * d ==> |r.key| == 4 * d
  {
    match s
    case Nonce => SetNonce(h, ws)
    case Seed => SetSeed(h, ws)
    case Key => SetKey(h, ws)
    case Batch => SetBatch(h, ws)
    case FixedKey => SetFixed(h, ws)
    case _ => h
  }

  // ---------------------------------------------------------------------
  // The key of the next encryption
  // ---------------------------------------------------------------------

  /** The test `unroll_inputs` uses to choose fixed-key mode, as written: `self._f == 1`. */
  predicate HostFixedAsWritten(f: Word)
  {
    f == 1
  }

  /**
   * The board's test, `fixed_key != 0`: the corrected host uses it, so that
   * both sides agree for every value of the flag.
   */
  predicate FixedKeyMode(f: Word)
  {
    f != 0
  }

  /**
   * The key the board derives after an encryption, from row 2 of the updated
   * PRNG state: in fixed-key mode a refresh of the batch's key `base`, drawn
   * from a tape seeded by the row; otherwise 4·D fresh words of that tape.
   */
  function NextKey(p: Params, base: seq<Word>, row: Word4, fixed: bool): (k: seq<Word>)
    requires p.d >= 1 && |base| == 4 * p.d
    ensures |k| == 4 * p.d
    ensures fixed ==> Umask(k, p.d) == Umask(base, p.d)
    ensures fixed ==> k == RefreshWords(base, GetRandomTape(p, Uninit(row), 4 * (p.d - 1)).0, p.d)
    ensures !fixed ==> k == GetRandomTape(p, Uninit(row), 4 * p.d).0
  {
    if fixed then SimpleRefresh(p, base, Uninit(row)).0
    else GetRandomTape(p, Uninit(row), 4 * p.d).0
  }

  // ---------------------------------------------------------------------
  // unroll_inputs
  // ---------------------------------------------------------------------

  /** Key of encryption i of a batch: the stored key first, then one derived after each shadow call. */
  function PredictedKey(p: Params, h: Host, fixed: bool, i: nat): (k: seq<Word>)
    requires p.d >= 1 && |h.key| == 4 * p.d
    ensures |k| == 4 * p.d
  {
    if i == 0 then h.key else NextKey(p, h.key, Iter(p.shadow, i, h.core)[2], fixed)
  }

  /** Nonce of encryption i of a batch: the stored nonce first, then row 1 after each shadow call. */
  function PredictedNonce(p: Params, h: Host, i: nat): Word4
  {
    if i == 0 then h.npub else Iter(p.shadow, i, h.core)[1]
  }

  /** Seed of encryption i of a batch: row 0 of the PRNG state after i shadow calls. */
  function PredictedSeed(p: Params, h: Host, i: nat): Word4
  {
    Iter(p.shadow, i, h.core)[0]
  }

  /** The host after a batch of n encryptions: it holds what the board holds for the next batch. */
  function HostAfter(p: Params, h: Host, fixed: bool, n: nat): (r: Host)
    requires p.d >= 1 && |h.key| == 4 * p.d
    ensures |r.key| == 4 * p.d
  {
    var core := Iter(p.shadow, n, h.core);
    h.(core := core, seed := core[0], npub := core[1], key := NextKey(p, h.key, core[2], fixed))
  }

  /** The first n rows of the key table of a batch. */
  function PredictedKeys(p: Params, h: Host, fixed: bool, n: nat): (ks: seq<seq<Word>>)
    requires p.d >= 1 && |h.key| == 4 * p.d
    ensures |ks| == n
  {
    if n == 0 then [] else PredictedKeys(p, h, fixed, n - 1) + [PredictedKey(p, h, fixed, n - 1)]
  }

  /** The first n rows of the seed table of a batch. */
  function PredictedSeeds(p: Params, h: Host, n: nat): (ss: seq<Word4>)
    ensures |ss| == n
  {
    if n == 0 then [] else PredictedSeeds(p, h, n - 1) + [PredictedSeed(p, h, n - 1)]
  }

  /** The first n rows of the nonce table of a batch. */
  function PredictedNonces(p: Params, h: Host, n: nat): (ns: seq<Word4>)
    ensures |ns| == n
  {
    if n == 0 then [] else PredictedNonces(p, h, n - 1) + [PredictedNonce(p, h, n - 1)]
  }

  /** Row i of the tables holds the inputs of encryption i. */
  lemma {:induction false} PredictedRows(p: Params, h: Host, fixed: bool, n: nat, i: nat)
    requires p.d >= 1 && |h.key| == 4 * p.d && i < n
    ensures PredictedKeys(p, h, fixed, n)[i] == PredictedKey(p, h, fixed, i)
    ensures PredictedSeeds(p, h, n)[i] == PredictedSeed(p, h, i)
    ensures PredictedNonces(p, h, n)[i] == PredictedNonce(p, h, i)
  {
    hide PredictedKey, PredictedSeed, PredictedNonce;
    if i < n - 1 {
      PredictedRows(p, h, fixed, n - 1, i);
    }
  }

  /**
   * The loop of `unroll_inputs(N)` with the mode test already taken: row 0
   * of each table is what the host stored, row i + 1 comes from the state
   * after i + 1 shadow calls, and the last turn stores the next batch's key,
   * seed and nonce instead. `unroll_inputs(0)` fails on its first
   * assignment, so n >= 1.
   */
  method UnrollLoop(p: Params, h: Host, n: nat, fixed: bool)
    returns (keys: seq<seq<Word>>, seeds: seq<Word4>, nonces: seq<Word4>, next: Host)
    requires p.d >= 1 && |h.key| == 4 * p.d && n >= 1
    ensures keys == PredictedKeys(p, h, fixed, n)
    ensures seeds == PredictedSeeds(p, h, n) && nonces == PredictedNonces(p, h, n)
    ensures next == HostAfter(p, h, fixed, n)
  {
    hide NextKey, HostAfter, Iter, PredictedKey, PredictedSeed, PredictedNonce;
    hide PredictedKeys, PredictedSeeds, PredictedNonces;
    UnrollStart(p, h, fixed);
    keys, seeds, nonces := [h.key], [h.core[0]], [h.npub];
    var state := h.core;
    next := h;
    var i := 0;
    while i < n
      invariant 0 <= i <= n
      invariant state == Iter(p.shadow, i, h.core)
      invariant |keys| == if i < n then i + 1 else n
      invariant keys == PredictedKeys(p, h, fixed, |keys|)
      invariant seeds == PredictedSeeds(p, h, |keys|) && nonces == PredictedNonces(p, h, |keys|)
      invariant i < n ==> next == h
      invariant i == n ==> next == HostAfter(p, h, fixed, n)
    {
      UnrollStep(p, h, fixed, i, state);
      state := p.shadow(state);
      var key := NextKey(p, h.key, state[2], fixed);
      if i != n - 1 {
        TablesGrow(p, h, fixed, i + 1);
        keys, seeds, nonces := keys + [key], seeds + [state[0]], nonces + [state[1]];
      } else {
        next := h.(npub := state[1], key := key, seed := state[0], core := state);
      }
      i := i + 1;
    }
  }

  /** A table of m + 1 rows is the table of m rows and row m. */
  lemma TablesGrow(p: Params, h: Host, fixed: bool, m: nat)
    requires p.d >= 1 && |h.key| == 4 * p.d
    ensures PredictedKeys(p, h, fixed, m + 1) == PredictedKeys(p, h, fixed, m) + [PredictedKey(p, h, fixed, m)]
    ensures PredictedSeeds(p, h, m + 1) == PredictedSeeds(p, h, m) + [PredictedSeed(p, h, m)]
    ensures PredictedNonces(p, h, m + 1) == PredictedNonces(p, h, m) + [PredictedNonce(p, h, m)]
  {
  }

  /** Row 0 of each table is what the host holds. */
  lemma UnrollStart(p: Params, h: Host, fixed: bool)
    requires p.d >= 1 && |h.key| == 4 * p.d
    ensures h.core == Iter(p.shadow, 0, h.core)
    ensures [h.key] == PredictedKeys(p, h, fixed, 1)
    ensures [h.core[0]] == PredictedSeeds(p, h, 1) && [h.npub] == PredictedNonces(p, h, 1)
  {
  }

  /**
   * One turn of the loop: the state after i + 1 shadow calls gives row
   * i + 1 of the tables, and the host state a last turn stores.
   */
  lemma UnrollStep(p: Params, h: Host, fixed: bool, i: nat, state: CoreState)
    requires p.d >= 1 && |h.key| == 4 * p.d
    requires state == Iter(p.shadow, i, h.core)
    ensures var s := p.shadow(state);
            && s == Iter(p.shadow, i + 1, h.core)
            && NextKey(p, h.key, s[2], fixed) == PredictedKey(p, h, fixed, i + 1)
            && s[0] == PredictedSeed(p, h, i + 1) && s[1] == PredictedNonce(p, h, i + 1)
            && h.(npub := s[1], key := NextKey(p, h.key, s[2], fixed), seed := s[0], core := s)
               == HostAfter(p, h, fixed, i + 1)
  {
  }

  /** `unroll_inputs(N)` as written: fixed-key mode iff `_f == 1`. */
  method UnrollInputsAsWritten(p: Params, h: Host, n: nat)
    returns (keys: seq<seq<Word>>, seeds: seq<Word4>, nonces: seq<Word4>, next: Host)
    requires p.d >= 1 && |h.key| == 4 * p.d && n >= 1
    ensures keys == PredictedKeys(p, h, HostFixedAsWritten(h.fixed), n)
    ensures seeds == PredictedSeeds(p, h, n) && nonces == PredictedNonces(p, h, n)
    ensures next == HostAfter(p, h, HostFixedAsWritten(h.fixed), n)
  {
    keys, seeds, nonces, next := UnrollLoop(p, h, n, HostFixedAsWritten(h.fixed));
  }

  /** `unroll_inputs(N)` with the board's mode test, `_f != 0`. */
  method UnrollInputs(p: Params, h: Host, n: nat)
    returns (keys: seq<seq<Word>>, seeds: seq<Word4>, nonces: seq<Word4>, next: Host)
    requires p.d >= 1 && |h.key| == 4 * p.d && n >= 1
    ensures keys == PredictedKeys(p, h, FixedKeyMode(h.fixed), n)
    ensures seeds == PredictedSeeds(p, h, n) && nonces == PredictedNonces(p, h, n)
    ensures next == HostAfter(p, h, FixedKeyMode(h.fixed), n)
  {
    keys, seeds, nonces, next := UnrollLoop(p, h, n, FixedKeyMode(h.fixed));
  }

  // ---------------------------------------------------------------------
  // Properties of the prediction
  // ---------------------------------------------------------------------

  /** In fixed-key mode every key of a batch, and the next batch's key, unmasks to the stored key. */
  lemma FixedKeysUnmask(p: Params, h: Host, n: nat, i: nat)
    requires p.d >= 1 && |h.key| == 4 * p.d
    ensures Umask(PredictedKey(p, h, true, i), p.d) == Umask(h.key, p.d)
    ensures Umask(HostAfter(p, h, true, n).key, p.d) == Umask(h.key, p.d)
  {
  }

  /**
   * Two consecutive batches predict what one batch of the combined size
   * predicts: seeds and nonces word for word; keys word for word in
   * random-key mode, and after unmasking in fixed-key mode (there every key
   * of a batch refreshes that batch's first key).
   */
  lemma BatchesChain(p: Params, h: Host, fixed: bool, n1: nat, i: nat)
    requires p.d >= 1 && |h.key| == 4 * p.d && n1 >= 1
    ensures var h1 := HostAfter(p, h, fixed, n1);
            && PredictedSeed(p, h1, i) == PredictedSeed(p, h, n1 + i)
            && PredictedNonce(p, h1, i) == PredictedNonce(p, h, n1 + i)
            && (!fixed ==> PredictedKey(p, h1, fixed, i) == PredictedKey(p, h, fixed, n1 + i))
            && (fixed ==> Umask(PredictedKey(p, h1, fixed, i), p.d) == Umask(PredictedKey(p, h, fixed, n1 + i), p.d))
  {
    IterAdd(p.shadow, i, n1, h.core);
    FixedKeysUnmask(p, HostAfter(p, h, fixed, n1), 0, i);
  }

  /** Chained batches end where one batch of the combined size ends, up to unmasking of the key. */
  lemma HostAfterChain(p: Params, h: Host, fixed: bool, n1: nat, n2: nat)
    requires p.d >= 1 && |h.key| == 4 * p.d && n1 >= 1 && n2 >= 1
    ensures var h2 := HostAfter(p, HostAfter(p, h, fixed, n1), fixed, n2);
            var h12 := HostAfter(p, h, fixed, n1 + n2);
            && h2.core == h12.core && h2.seed == h12.seed && h2.npub == h12.npub
            && (!fixed ==> h2.key == h12.key)
            && (fixed ==> Umask(h2.key, p.d) == Umask(h12.key, p.d))
  {
    IterAdd(p.shadow, n2, n1, h.core);
  }
}

/**
 * The host's mirror of the on-board PRNG (`get_random_tape`, `fill_table`):
 * a sponge-style generator over the opaque permutation `shadow`, read out
 * through a 16-word table that is refilled by two permutation steps.
 *
 * Besides the buffered tape this module defines an independent reference,
 * the word stream `StreamWord`, and proves that the buffered tape reads
 * exactly that stream, whatever `shadow` is.
 */
module Prng {
  import opened Words

  /** Capacity of the tape buffer (`MAX`). */
  const MAX: nat := 16

  type Table = t: seq<Word> | |t| == MAX witness Zeros(16)

  const ZeroTable: Table := Zeros(16)

  /**
   * The state a caller threads through `get_random_tape`: either a raw seed
   * not yet expanded, or the tuple (prng_index, prng_tab, prng_state_core).
   */
  datatype Tape = Uninit(seed: Word4) | Running(index: nat, table: Table, core: CoreState)

  /** The core state a raw seed expands to: the seed in row 0, zero rows below. */
  function Seeded(seed: Word4): (c: CoreState)
    ensures c[0] == seed
    ensures forall i | 1 <= i < 4 :: c[i] == ZeroRow
  {
    [seed, ZeroRow, ZeroRow, ZeroRow]
  }

  /** `shadow` applied n times. */
  function Iter(shadow: CoreState -> CoreState, n: nat, c: CoreState): CoreState
  {
    if n == 0 then c else shadow(Iter(shadow, n - 1, c))
  }

  lemma {:induction false} IterAdd(shadow: CoreState -> CoreState, a: nat, b: nat, c: CoreState)
    ensures Iter(shadow, a, Iter(shadow, b, c)) == Iter(shadow, a + b, c)
  {
    if a > 0 {
      IterAdd(shadow, a - 1, b, c);
    }
  }

  lemma IterShift(shadow: CoreState -> CoreState, n: nat, c: CoreState)
    ensures Iter(shadow, n, shadow(c)) == Iter(shadow, n + 1, c)
  {
    IterAdd(shadow, n, 1, c);
  }

  /**
   * `fill_table`: two permutation steps; entries 0..7 are rows 0-1 (row-major)
   * after the first step, entries 8..15 rows 0-1 after the second.
   */
  function FillTable(shadow: CoreState -> CoreState, core: CoreState): (r: (CoreState, Table))
    ensures r.0 == Iter(shadow, 2, core)
    ensures forall n | 0 <= n < 8 :: r.1[n] == shadow(core)[n / 4][n % 4]
    ensures forall n | 0 <= n < 8 :: r.1[8 + n] == r.0[n / 4][n % 4]
  {
    var s1 := shadow(core);
    var s2 := shadow(s1);
    assert Iter(shadow, 1, core) == s1;
    var r0: seq<Word> := s1[0];
    var table: seq<Word> := r0 + s1[1] + s2[0] + s2[1];
    (s2, table)
  }

  /** The tuple a tape is in when the draw loop starts: a raw seed is expanded and the index set to MAX. */
  function Start(t: Tape): (r: Tape)
    ensures r.Running?
    ensures t.Uninit? ==> r == Running(MAX, ZeroTable, Seeded(t.seed))
    ensures t.Running? ==> r == t
  {
    match t
    case Uninit(seed) => Running(MAX, ZeroTable, Seeded(seed))
    case Running(_, _, _) => t
  }

  /**
   * The loop `for i in range(l)` of `get_random_tape`: refill when the index
   * has reached MAX, then read one table entry and advance the index.
   */
  function Pull(shadow: CoreState -> CoreState, t: Tape, l: nat): (r: (seq<Word>, Tape))
    requires t.Running?
    ensures |r.0| == l && r.1.Running?
    ensures l > 0 ==> 1 <= r.1.index <= MAX
    ensures l == 0 ==> r.1 == t
    decreases l, if t.index >= MAX then 1 else 0
  {
    if l == 0 then ([], t)
    else if t.index >= MAX then
      var filled := FillTable(shadow, t.core);
      Pull(shadow, Running(0, filled.1, filled.0), l)
    else
      var rest := Pull(shadow, Running(t.index + 1, t.table, t.core), l - 1);
      ([t.table[t.index]] + rest.0, rest.1)
  }

  /** The words `get_random_tape` reads and the tuple it returns, before the PRGON switch. */
  function Draw(shadow: CoreState -> CoreState, t: Tape, l: nat): (r: (seq<Word>, Tape))
    ensures |r.0| == l && r.1.Running?
    ensures (l > 0 || t.Uninit? || t.index <= MAX) ==> r.1.index <= MAX
  {
    Pull(shadow, Start(t), l)
  }

  /** The tape state after l words have been read. */
  function Advance(shadow: CoreState -> CoreState, t: Tape, l: nat): Tape
  {
    Draw(shadow, t, l).1
  }

  /**
   * `get_random_tape(seed, l)`: l words and the new tuple. With PRGON off the
   * words are all zero while index, table and core advance as with it on.
   */
  function GetRandomTape(p: Params, t: Tape, l: nat): (r: (seq<Word>, Tape))
    ensures |r.0| == l
    ensures r.1 == Advance(p.shadow, t, l)
    ensures p.prgOn ==> r.0 == Draw(p.shadow, t, l).0
    ensures !p.prgOn ==> forall i | 0 <= i < l :: r.0[i] == 0
  {
    var drawn := Draw(p.shadow, t, l);
    (if p.prgOn then drawn.0 else Zeros(l), drawn.1)
  }

  /**
   * The tape after n one-word draws. Unlike `Advance`, skipping no word
   * leaves a raw seed as it is: a gadget that draws nothing does not expand it.
   */
  function Skip(shadow: CoreState -> CoreState, t: Tape, n: nat): Tape
  {
    if n == 0 then t else Advance(shadow, t, n)
  }

  /** One word, as every masking gadget draws it (`get_random_tape(seed_tmp, 1)`). */
  function Next(p: Params, t: Tape): (r: (Word, Tape))
    ensures r.1 == Skip(p.shadow, t, 1)
    ensures r.0 == GetRandomTape(p, t, 1).0[0]
    ensures !p.prgOn ==> r.0 == 0
  {
    var drawn := GetRandomTape(p, t, 1);
    (drawn.0[0], drawn.1)
  }

  /** One word read from a table that is not exhausted: the entry at the index, and the index moves on. */
  lemma PullOne(shadow: CoreState -> CoreState, t: Tape)
    requires t.Running? && t.index < MAX
    ensures Pull(shadow, t, 1) == ([t.table[t.index]], Running(t.index + 1, t.table, t.core))
  {
    var next := Running(t.index + 1, t.table, t.core);
    assert Pull(shadow, next, 0) == ([], next);
    assert [t.table[t.index]] + [] == [t.table[t.index]];
  }

  // ---------------------------------------------------------------------
  // Stream property: reading l1 then l2 words is reading l1 + l2 words.
  // ---------------------------------------------------------------------

  lemma {:induction false} PullConcat(shadow: CoreState -> CoreState, t: Tape, l1: nat, l2: nat)
    requires t.Running?
    ensures var first := Pull(shadow, t, l1);
            var second := Pull(shadow, first.1, l2);
            Pull(shadow, t, l1 + l2) == (first.0 + second.0, second.1)
    decreases l1, if t.index >= MAX then 1 else 0
  {
    if l1 == 0 {
      assert Pull(shadow, t, 0) == ([], t);
      assert [] + Pull(shadow, t, l2).0 == Pull(shadow, t, l2).0;
    } else if t.index >= MAX {
      var filled := FillTable(shadow, t.core);
      PullConcat(shadow, Running(0, filled.1, filled.0), l1, l2);
    } else {
      var next := Running(t.index + 1, t.table, t.core);
      PullConcat(shadow, next, l1 - 1, l2);
      var first := Pull(shadow, next, l1 - 1);
      var second := Pull(shadow, first.1, l2);
      assert [t.table[t.index]] + (first.0 + second.0) == ([t.table[t.index]] + first.0) + second.0;
    }
  }

  /** Drawing l1 words and then l2 more from the returned tuple reads the same words as one draw of l1 + l2. */
  lemma DrawConcat(shadow: CoreState -> CoreState, t: Tape, l1: nat, l2: nat)
    ensures var first := Draw(shadow, t, l1);
            var second := Draw(shadow, first.1, l2);
            Draw(shadow, t, l1 + l2) == (first.0 + second.0, second.1)
  {
    PullConcat(shadow, Start(t), l1, l2);
  }

  lemma AdvanceAdd(shadow: CoreState -> CoreState, t: Tape, a: nat, b: nat)
    ensures Advance(shadow, Advance(shadow, t, a), b) == Advance(shadow, t, a + b)
  {
    DrawConcat(shadow, t, a, b);
  }

  /** Skipping a words and then b words skips a + b words. */
  lemma SkipAdd(shadow: CoreState -> CoreState, t: Tape, a: nat, b: nat)
    ensures Skip(shadow, Skip(shadow, t, a), b) == Skip(shadow, t, a + b)
  {
    if a > 0 && b > 0 {
      AdvanceAdd(shadow, t, a, b);
    }
  }

  /** Three consecutive skips of a, b and c words skip a + b + c words. */
  lemma SkipChain(shadow: CoreState -> CoreState, t: Tape, t1: Tape, t2: Tape, t3: Tape, a: nat, b: nat, c: nat, total: nat)
    requires t1 == Skip(shadow, t, a) && t2 == Skip(shadow, t1, b) && t3 == Skip(shadow, t2, c)
    requires total == a + b + c
    ensures t3 == Skip(shadow, t, total)
  {
    SkipAdd(shadow, t, a, b);
    SkipAdd(shadow, t, a + b, c);
  }

  /** The first word of a draw of 1 + n words is the word `Next` returns; the rest come from its tape. */
  lemma GetRandomTapeSplit(p: Params, t: Tape, n: nat)
    ensures var one := Next(p, t);
            var rest := GetRandomTape(p, one.1, n);
            GetRandomTape(p, t, 1 + n) == ([one.0] + rest.0, rest.1)
  {
    DrawConcat(p.shadow, t, 1, n);
    var one := Next(p, t);
    var rest := GetRandomTape(p, one.1, n);
    if p.prgOn {
      assert Draw(p.shadow, t, 1).0 == [one.0];
    } else {
      assert GetRandomTape(p, t, 1 + n).0 == [one.0] + rest.0;
    }
  }

  /**
   * n successive one-word draws, each threading the tuple the previous one
   * returned: how the masking gadgets consume the tape.
   */
  function Draws(p: Params, t: Tape, n: nat): (r: (seq<Word>, Tape))
    ensures |r.0| == n
    decreases n
  {
    if n == 0 then ([], t)
    else
      var one := Next(p, t);
      var rest := Draws(p, one.1, n - 1);
      ([one.0] + rest.0, rest.1)
  }

  /** n one-word draws read the same words as one draw of n words, and leave the tape n words on. */
  lemma {:induction false} DrawsAtOnce(p: Params, t: Tape, n: nat)
    ensures Draws(p, t, n) == (GetRandomTape(p, t, n).0, Skip(p.shadow, t, n))
    decreases n
  {
    if n > 0 {
      var one := Next(p, t);
      DrawsAtOnce(p, one.1, n - 1);
      GetRandomTapeSplit(p, t, n - 1);
      SkipAdd(p.shadow, t, 1, n - 1);
    }
  }

  // ---------------------------------------------------------------------
  // Refill count of an arbitrary running tape.
  // ---------------------------------------------------------------------

  /** How many times the table is refilled while l words are read from index i (i <= MAX). */
  function Refills(i: nat, l: nat): nat
  {
    if l == 0 then 0 else (l + i - 1) / MAX
  }

  /**
   * Reading l words from a running tape whose index is at most MAX refills the
   * table (l + index - 1) / 16 times, i.e. advances the core by twice that many
   * `shadow` steps, and leaves the index at (l + index - 1) % 16 + 1.
   */
  lemma {:induction false} PullRefills(shadow: CoreState -> CoreState, t: Tape, l: nat)
    requires t.Running? && t.index <= MAX
    ensures Pull(shadow, t, l).1.core == Iter(shadow, 2 * Refills(t.index, l), t.core)
    ensures l > 0 ==> Pull(shadow, t, l).1.index == (l + t.index - 1) % MAX + 1
    decreases l, if t.index >= MAX then 1 else 0
  {
    hide Pull, FillTable, RefillBlock, Refills;
    if l == 0 {
      RefillsNone(t.index);
    } else if t.index >= MAX {
      hide Iter;
      var t' := Running(0, RefillBlock(shadow, t.core), FillTable(shadow, t.core).0);
      PullRefill(shadow, t, l);
      PullRefills(shadow, t', l);
      RefillsArith(t.index, l);
      IterAdd(shadow, 2 * Refills(0, l), 2, t.core);
    } else {
      var t' := Running(t.index + 1, t.table, t.core);
      PullRead(shadow, t, l);
      PullRefills(shadow, t', l - 1);
      RefillsArith(t.index, l);
    }
  }

  lemma RefillsNone(i: nat)
    ensures Refills(i, 0) == 0
  {
  }

  /** Reading from a table that is not exhausted takes the entry at the index first. */
  lemma PullRead(shadow: CoreState -> CoreState, t: Tape, l: nat)
    requires t.Running? && t.index < MAX && l > 0
    ensures Pull(shadow, t, l).1 == Pull(shadow, Running(t.index + 1, t.table, t.core), l - 1).1
  {
  }

  /** The index arithmetic behind `PullRefills`: a refill at the top, one word read below it. */
  lemma RefillsArith(i: nat, l: nat)
    requires i <= MAX && l > 0
    ensures i == MAX ==> Refills(i, l) == Refills(0, l) + 1 && (l + i - 1) % MAX == (l - 1) % MAX
    ensures i < MAX ==> Refills(i, l) == Refills(i + 1, l - 1)
    ensures i < MAX && l == 1 ==> (l + i - 1) % MAX + 1 == i + 1
  {
  }

  // ---------------------------------------------------------------------
  // Reference: the word stream of a seeded core.
  // ---------------------------------------------------------------------

  /** The 16 words produced by one refill of a core. */
  function RefillBlock(shadow: CoreState -> CoreState, c: CoreState): Table
  {
    FillTable(shadow, c).1
  }

  /** Word n of the stream generated from core `origin`: entry n % 16 of refill number n / 16. */
  function StreamWord(shadow: CoreState -> CoreState, origin: CoreState, n: nat): Word
  {
    RefillBlock(shadow, Iter(shadow, 2 * (n / MAX), origin))[n % MAX]
  }

  /** Words pos .. pos + l - 1 of the stream of `origin`. */
  function StreamWords(shadow: CoreState -> CoreState, origin: CoreState, pos: nat, l: nat): (r: seq<Word>)
    ensures |r| == l
  {
    seq(l, i requires 0 <= i < l => StreamWord(shadow, origin, pos + i))
  }

  lemma StreamWordsAt(shadow: CoreState -> CoreState, origin: CoreState, pos: nat, l: nat)
    ensures forall i | 0 <= i < l :: StreamWords(shadow, origin, pos, l)[i] == StreamWord(shadow, origin, pos + i)
  {
  }

  /** The tuple of a tape that has read `pos` words of the stream of `origin`. */
  function AtPos(shadow: CoreState -> CoreState, origin: CoreState, pos: nat): (t: Tape)
    ensures t.Running? && t.index <= MAX
  {
    if pos == 0 then Running(MAX, ZeroTable, origin)
    else
      var k := (pos - 1) / MAX;
      Running((pos - 1) % MAX + 1, RefillBlock(shadow, Iter(shadow, 2 * k, origin)), Iter(shadow, 2 * k + 2, origin))
  }

  /** The position arithmetic behind `StepAtPos`: word `pos` either starts a new block or follows in the same one. */
  lemma PosArith(pos: nat)
    ensures pos == 0 || (pos - 1) % MAX == MAX - 1 ==> pos % MAX == 0
    ensures pos > 0 && (pos - 1) % MAX == MAX - 1 ==> (pos - 1) / MAX + 1 == pos / MAX
    ensures pos > 0 && (pos - 1) % MAX < MAX - 1 ==> pos / MAX == (pos - 1) / MAX && pos % MAX == (pos - 1) % MAX + 1
  {
  }

  /** The tuple at a position inside a block, named by its block k and index i. */
  lemma AtPosIs(shadow: CoreState -> CoreState, origin: CoreState, pos: nat, k: nat, i: nat)
    requires pos > 0 && k == (pos - 1) / MAX && i == (pos - 1) % MAX + 1
    ensures AtPos(shadow, origin, pos) == Running(i, RefillBlock(shadow, Iter(shadow, 2 * k, origin)), Iter(shadow, 2 * k + 2, origin))
  {
  }

  /** At the start of a block the table is exhausted and the core has made two steps per block. */
  lemma AtPosExhausted(shadow: CoreState -> CoreState, origin: CoreState, pos: nat, k: nat)
    requires (pos == 0 || (pos - 1) % MAX == MAX - 1) && k == pos / MAX
    ensures AtPos(shadow, origin, pos).index == MAX
    ensures AtPos(shadow, origin, pos).core == Iter(shadow, 2 * k, origin)
  {
    PosArith(pos);
  }

  /** Word n of the stream, named by its block k and entry i. */
  lemma StreamWordIs(shadow: CoreState -> CoreState, origin: CoreState, n: nat, k: nat, i: nat)
    requires k == n / MAX && i == n % MAX
    ensures StreamWord(shadow, origin, n) == RefillBlock(shadow, Iter(shadow, 2 * k, origin))[i]
  {
  }

  /** Reading from an exhausted table refills it first. */
  lemma PullRefill(shadow: CoreState -> CoreState, t: Tape, l: nat)
    requires t.Running? && t.index >= MAX && l > 0
    ensures Pull(shadow, t, l) == Pull(shadow, Running(0, RefillBlock(shadow, t.core), FillTable(shadow, t.core).0), l)
  {
  }

  /** Reading one word advances the tuple to the next position of the stream. */
  lemma StepAtPos(shadow: CoreState -> CoreState, origin: CoreState, pos: nat)
    ensures Pull(shadow, AtPos(shadow, origin, pos), 1)
         == ([StreamWord(shadow, origin, pos)], AtPos(shadow, origin, pos + 1))
  {
    hide Pull, FillTable, AtPos, Iter, RefillBlock, StreamWord;
    var t := AtPos(shadow, origin, pos);
    PosArith(pos);
    if pos == 0 || (pos - 1) % MAX == MAX - 1 {
      // the table is exhausted: one refill, then entry 0 of the new block
      var k := pos / MAX;
      AtPosExhausted(shadow, origin, pos, k);
      var t1 := Running(0, RefillBlock(shadow, t.core), FillTable(shadow, t.core).0);
      PullRefill(shadow, t, 1);
      PullOne(shadow, t1);
      IterAdd(shadow, 2, 2 * k, origin);
      StreamWordIs(shadow, origin, pos, k, 0);
      AtPosIs(shadow, origin, pos + 1, k, 1);
    } else {
      var k := (pos - 1) / MAX;
      var i := (pos - 1) % MAX + 1;
      AtPosIs(shadow, origin, pos, k, i);
      PullOne(shadow, t);
      StreamWordIs(shadow, origin, pos, k, i);
      AtPosIs(shadow, origin, pos + 1, k, i + 1);
    }
  }

  /** The first word of a stream window, and the window after it. */
  lemma StreamWordsCons(shadow: CoreState -> CoreState, origin: CoreState, pos: nat, l: nat, next: nat, rest: nat)
    requires next == pos + 1 && rest + 1 == l
    ensures StreamWords(shadow, origin, pos, l) == [StreamWord(shadow, origin, pos)] + StreamWords(shadow, origin, next, rest)
  {
    StreamWordsAt(shadow, origin, pos, l);
    StreamWordsAt(shadow, origin, next, rest);
    hide StreamWord, StreamWords;
    var ws := StreamWords(shadow, origin, pos, l);
    var tail := StreamWords(shadow, origin, next, rest);
    assert forall i | 0 <= i < rest :: ws[i + 1] == tail[i];
  }

  /** A tape positioned at word `pos` of a stream reads the next l stream words and ends at `pos + l`. */
  lemma PullAtPos(shadow: CoreState -> CoreState, origin: CoreState, pos: nat, l: nat)
    ensures Pull(shadow, AtPos(shadow, origin, pos), l)
         == (StreamWords(shadow, origin, pos, l), AtPos(shadow, origin, pos + l))
  {
    hide Pull, FillTable, AtPos, StreamWord, StreamWords;
    PullAtPosTo(shadow, origin, pos, l, pos + l);
  }

  /** `PullAtPos` with the end position named, so that every step speaks of the same final tuple. */
  lemma {:induction false} PullAtPosTo(shadow: CoreState -> CoreState, origin: CoreState, pos: nat, l: nat, end: nat)
    requires end == pos + l
    ensures Pull(shadow, AtPos(shadow, origin, pos), l)
         == (StreamWords(shadow, origin, pos, l), AtPos(shadow, origin, end))
    decreases l
  {
    hide Pull, FillTable, AtPos, StreamWord, StreamWords;
    if l == 0 {
      assert Pull(shadow, AtPos(shadow, origin, pos), 0).1 == AtPos(shadow, origin, pos);
    } else {
      var next, rest := pos + 1, l - 1;
      PullAtPosTo(shadow, origin, next, rest, end);
      PullAtPosStep(shadow, origin, pos, l, next, rest, end);
    }
  }

  /** The step of `PullAtPosTo`: one stream word, then the window after it. */
  lemma PullAtPosStep(shadow: CoreState -> CoreState, origin: CoreState, pos: nat, l: nat, next: nat, rest: nat, end: nat)
    requires next == pos + 1 && rest + 1 == l
    requires Pull(shadow, AtPos(shadow, origin, next), rest)
          == (StreamWords(shadow, origin, next, rest), AtPos(shadow, origin, end))
    ensures Pull(shadow, AtPos(shadow, origin, pos), l)
         == (StreamWords(shadow, origin, pos, l), AtPos(shadow, origin, end))
  {
    hide Pull, FillTable, AtPos, StreamWord, StreamWords;
    StepAtPos(shadow, origin, pos);
    StreamWordsCons(shadow, origin, pos, l, next, rest);
    PullStep(shadow, AtPos(shadow, origin, pos), AtPos(shadow, origin, next), StreamWord(shadow, origin, pos),
             StreamWords(shadow, origin, next, rest), AtPos(shadow, origin, end), l);
  }

  /** One word read, then l - 1 more: the l words of a read that starts with that word. */
  lemma PullStep(shadow: CoreState -> CoreState, t: Tape, t1: Tape, w: Word, rest: seq<Word>, t2: Tape, l: nat)
    requires t.Running? && l > 0
    requires Pull(shadow, t, 1) == ([w], t1)
    requires Pull(shadow, t1, l - 1) == (rest, t2)
    ensures Pull(shadow, t, l) == ([w] + rest, t2)
  {
    PullConcat(shadow, t, 1, l - 1);
  }

  /**
   * Buffer correctness: a tape seeded from a raw seed reads the stream of the
   * seeded core word for word, and after l words its tuple is `AtPos(.., l)`.
   */
  lemma FreshDrawIsStream(shadow: CoreState -> CoreState, seed: Word4, l: nat)
    ensures Draw(shadow, Uninit(seed), l)
         == (StreamWords(shadow, Seeded(seed), 0, l), AtPos(shadow, Seeded(seed), l))
  {
    PullAtPos(shadow, Seeded(seed), 0, l);
  }

  /** A tape seeded from a raw seed that reads 32 words has applied `shadow` exactly four times. */
  lemma FreshTapeFourSteps(shadow: CoreState -> CoreState, seed: Word4)
    ensures Advance(shadow, Uninit(seed), 32).core == Iter(shadow, 4, Seeded(seed))
    ensures Advance(shadow, Uninit(seed), 32).index == MAX
  {
    FreshDrawIsStream(shadow, seed, 32);
  }

  /** A tape is at position `pos` of the stream of `origin` when its loop starts from `AtPos`. */
  ghost predicate AtStream(shadow: CoreState -> CoreState, t: Tape, origin: CoreState, pos: nat)
  {
    Start(t) == AtPos(shadow, origin, pos)
  }

  lemma DrawAtStream(shadow: CoreState -> CoreState, t: Tape, origin: CoreState, pos: nat, l: nat)
    requires AtStream(shadow, t, origin, pos)
    ensures Draw(shadow, t, l).0 == StreamWords(shadow, origin, pos, l)
    ensures AtStream(shadow, Draw(shadow, t, l).1, origin, pos + l)
  {
    PullAtPos(shadow, origin, pos, l);
  }
}

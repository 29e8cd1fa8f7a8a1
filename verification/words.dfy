/**
 * Basic data of the masking co-simulator: 32-bit words, 4-word vectors
 * (nonces, seeds, PRNG rows), 128-bit blocks, the 4x4 PRNG core state,
 * the session parameters and the error result of the masked gadgets.
 */
module Words {

  type Word = bv32

  /** Four 32-bit words: a PRNG row, a nonce, a seed, a tweak or an unmasked state. */
  type Word4 = s: seq<Word> | |s| == 4 witness [0, 0, 0, 0]

  const ZeroRow: Word4 := [0, 0, 0, 0]

  /** The 4x4 word state of the PRNG permutation (`prng_state`, `prng_state_core`). */
  type CoreState = c: seq<Word4> | |c| == 4 witness [ZeroRow, ZeroRow, ZeroRow, ZeroRow]

  /**
   * The session parameters: the masking order D, the PRGON switch of the
   * host's random tape, and the `shadow` permutation, which the model never
   * inspects: every property below holds for every choice of it.
   */
  datatype Params = Params(d: nat, prgOn: bool, shadow: CoreState -> CoreState)

  /** The only error of the core: the SNI refresh exists for D <= 8 only. */
  datatype Error = RefreshOrderUnsupported(order: nat)

  datatype Result<T> = Success(value: T) | Failure(error: Error)

  /**
   * A 128-bit value of the cipher: a Clyde-128 state, plaintext, tweak or
   * unmasked key, as four 32-bit lanes in word order.
   */
  datatype Block = Block(x0: Word, x1: Word, x2: Word, x3: Word)

  /** A 32-bit count (`N`) as a number. */
  function Count(w: Word): nat
  {
    w as nat
  }

  /** The block made of four words (`np.frombuffer` of 16 bytes). */
  function BlockOf(w: Word4): (b: Block)
    ensures b.x0 == w[0] && b.x1 == w[1] && b.x2 == w[2] && b.x3 == w[3]
  {
    Block(w[0], w[1], w[2], w[3])
  }

  function Zeros(n: nat): (r: seq<Word>)
    ensures |r| == n && forall i | 0 <= i < n :: r[i] == 0
  {
    seq(n, _ => 0)
  }
}

/**
 * XOR and AND of words as functions, with the identities behind the share
 * algebra. Each identity is first proved on the bare bit-vector operators
 * and then carried over to the functions one unfolding at a time.
 */
module WordLaws {
  import opened Words

  function Xor(x: Word, y: Word): Word
  {
    x ^ y
  }

  function And(x: Word, y: Word): Word
  {
    x & y
  }

  /** Lane-wise XOR of two blocks. */
  function XorBlock(a: Block, b: Block): Block
  {
    Block(Xor(a.x0, b.x0), Xor(a.x1, b.x1), Xor(a.x2, b.x2), Xor(a.x3, b.x3))
  }

  lemma XorIs(x: Word, y: Word)
    ensures Xor(x, y) == x ^ y
  {
  }

  lemma AndIs(x: Word, y: Word)
    ensures And(x, y) == x & y
  {
  }

  lemma XorCommutes(x: Word, y: Word)
    ensures Xor(x, y) == Xor(y, x)
  {
    XorIs(x, y);
    XorIs(y, x);
  }

  lemma XorZero(x: Word)
    ensures Xor(x, 0) == x && Xor(x, x) == 0
  {
    XorIs(x, 0);
    XorIs(x, x);
  }

  lemma XorRegroup(x: Word, y: Word, z: Word)
    ensures (x ^ y) ^ z == x ^ (y ^ z)
  {
  }

  lemma XorAssociates(x: Word, y: Word, z: Word)
    ensures Xor(Xor(x, y), z) == Xor(x, Xor(y, z))
  {
    XorLeftNested(x, y, z);
    XorRightNested(x, y, z);
    XorRegroup(x, y, z);
  }

  lemma XorLeftNested(x: Word, y: Word, z: Word)
    ensures Xor(Xor(x, y), z) == (x ^ y) ^ z
  {
    XorIs(x, y);
    XorIs(Xor(x, y), z);
  }

  lemma XorRightNested(x: Word, y: Word, z: Word)
    ensures Xor(x, Xor(y, z)) == x ^ (y ^ z)
  {
    XorIs(y, z);
    XorIs(x, Xor(y, z));
  }

  lemma AndOverXorLeft(x: Word, y: Word, z: Word)
    ensures x & (y ^ z) == (x & y) ^ (x & z)
  {
  }

  lemma AndOverXorRight(x: Word, y: Word, z: Word)
    ensures (x ^ y) & z == (x & z) ^ (y & z)
  {
  }

  lemma AndOfXorLeft(x: Word, y: Word, z: Word)
    ensures And(x, Xor(y, z)) == x & (y ^ z)
  {
    XorIs(y, z);
    AndIs(x, Xor(y, z));
  }

  lemma AndOfXorRight(x: Word, y: Word, z: Word)
    ensures And(Xor(x, y), z) == (x ^ y) & z
  {
    XorIs(x, y);
    AndIs(Xor(x, y), z);
  }

  lemma XorOfAnds(x: Word, y: Word, u: Word, v: Word)
    ensures Xor(And(x, y), And(u, v)) == (x & y) ^ (u & v)
  {
    AndIs(x, y);
    AndIs(u, v);
    XorIs(And(x, y), And(u, v));
  }

  lemma AndDistributesLeft(x: Word, y: Word, z: Word)
    ensures And(x, Xor(y, z)) == Xor(And(x, y), And(x, z))
  {
    AndOfXorLeft(x, y, z);
    XorOfAnds(x, y, x, z);
    AndOverXorLeft(x, y, z);
  }

  lemma AndDistributesRight(x: Word, y: Word, z: Word)
    ensures And(Xor(x, y), z) == Xor(And(x, z), And(y, z))
  {
    AndOfXorRight(x, y, z);
    XorOfAnds(x, z, y, z);
    AndOverXorRight(x, y, z);
  }
}

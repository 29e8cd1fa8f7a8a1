/**
 * Boolean masking of 32-bit words: the gadgets of module Gadgets over the
 * words under `^` (addition) and `&` (multiplication). `Secret` is what
 * `umask` computes for one sharing. Results are stated with the functions
 * `Xor` and `And` of WordLaws, never with the bare operators.
 */
module Sharing {
  import opened Words
  import opened Gadgets

  import opened WordLaws

  /** The share algebra of the co-simulator. */
  const Bits: Ring<Word> := Ring(Xor, And, 0)

  lemma BitsAddCommutes()
    ensures AddCommutes(Bits)
  {
    forall x: Word, y: Word ensures Bits.add(x, y) == Bits.add(y, x) {
      WordLaws.XorCommutes(x, y);
    }
  }

  lemma BitsAddAssociates()
    ensures AddAssociates(Bits)
  {
    forall x: Word, y: Word, z: Word ensures Bits.add(Bits.add(x, y), z) == Bits.add(x, Bits.add(y, z)) {
      WordLaws.XorAssociates(x, y, z);
    }
  }

  lemma BitsAddZero()
    ensures AddZero(Bits) && AddSelfInverse(Bits)
  {
    forall x: Word ensures Bits.add(x, Bits.zero) == x && Bits.add(x, x) == Bits.zero {
      WordLaws.XorZero(x);
    }
  }

  lemma BitsMulDistributes()
    ensures MulDistributes(Bits)
  {
    forall x: Word, y: Word, z: Word ensures Bits.mul(x, Bits.add(y, z)) == Bits.add(Bits.mul(x, y), Bits.mul(x, z)) {
      WordLaws.AndDistributesLeft(x, y, z);
    }
    forall x: Word, y: Word, z: Word ensures Bits.mul(Bits.add(x, y), z) == Bits.add(Bits.mul(x, z), Bits.mul(y, z)) {
      WordLaws.AndDistributesRight(x, y, z);
    }
  }

  /** 32-bit XOR and AND satisfy the laws the gadgets rely on. */
  lemma BitsLaws()
    ensures Laws(Bits)
  {
    BitsAddCommutes();
    BitsAddAssociates();
    BitsAddZero();
    BitsMulDistributes();
  }

  /** The secret of one sharing: the XOR of its shares (`umask` of one word). */
  function Secret(s: seq<Word>): Word
  {
    Fold(Bits, s)
  }

  /** The secret is the first share XOR the secret of the others; the empty sharing stands for zero. */
  lemma SecretCons(s: seq<Word>)
    ensures |s| == 0 ==> Secret(s) == 0
    ensures |s| > 0 ==> Secret(s) == Xor(s[0], Secret(s[1..]))
  {
  }

  /** `add_shares` XORs the secrets. */
  lemma AddSharesUnmask(a: seq<Word>, b: seq<Word>)
    requires |a| == |b|
    ensures Secret(AddShares(Bits, a, b)) == Xor(Secret(a), Secret(b))
  {
    BitsLaws();
    AddSharesFold(Bits, a, b);
  }

  /** `mult_shares` yields a sharing of the AND of the secrets, whatever words it draws. */
  lemma MultSharesUnmask(a: seq<Word>, b: seq<Word>, rs: seq<Word>)
    requires |a| == |b| && |rs| == |a| * (|a| - 1) / 2
    ensures Secret(MultShares(Bits, a, b, rs)) == And(Secret(a), Secret(b))
  {
    BitsLaws();
    MultSharesFold(Bits, a, b, rs);
  }

  /**
   * A successful `refresh` keeps the secret, whatever words it draws; with
   * all-zero words (PRGON off) it keeps every share.
   */
  lemma RefreshUnmask(s: seq<Word>, rs: seq<Word>)
    requires |rs| == RefreshDraws(|s|)
    ensures Refresh(Bits, s, rs).Success? ==> Secret(Refresh(Bits, s, rs).value) == Secret(s)
    ensures (forall n | 0 <= n < |rs| :: rs[n] == 0) && Refresh(Bits, s, rs).Success? ==> Refresh(Bits, s, rs).value == s
  {
    BitsLaws();
    RefreshFold(Bits, s, rs);
  }
}

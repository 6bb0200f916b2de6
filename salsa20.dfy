/**
 * The Salsa20 core of the RP2040 submission: the 32-bit rotation, the
 * quarter round applied in place to four words of the block, the ten double
 * rounds with the final feed-forward addition (the Salsa20 hash), the
 * 32-byte-key expansion that fills the block, the word-wise XOR encryption and
 * the byte swap used to print words.
 *
 * Words are `bv32`, so `+` is addition modulo 2^32 as with `uint32_t`; the
 * 64-bit nonce and block counter are `bv64`.
 */
module Salsa20 {

  /** SALSA_ROUNDS: twenty rounds, run as ten double rounds. */
  const Rounds: nat := 20
  /** SALSA_KEY_WORDS, SALSA_DATA_WORDS. */
  const KeyWords: nat := 8
  const DataWords: nat := 16

  /** The four expansion constants "expa", "nd 3", "2-by", "te k". */
  const Sigma0: bv32 := 0x61707865
  const Sigma1: bv32 := 0x3320646e
  const Sigma2: bv32 := 0x79622d32
  const Sigma3: bv32 := 0x6b206574

  /** A block: the sixteen words of `salsa_block_t`, rows 0 to 3 in order. */
  predicate IsBlock(s: seq<bv32>)
  {
    |s| == 16
  }

  // ---------------------------------------------------------------------------
  // Rotation

  /**
   * `salsa_rotate_uint32`: the amount is reduced modulo 32 and the word is
   * shifted both ways. With an amount of 0 the C right shift by 32 is
   * undefined; here it yields 0, so the result is `x`.
   */
  function Rotate(x: bv32, rot: bv32): bv32
  {
    var m := rot % 32;
    (x << m) | (x >> (32 - m))
  }

  /** With the four amounts the quarter round uses, `Rotate` is the rotation to the left. */
  lemma RotateIsRotation(x: bv32)
    ensures Rotate(x, 7) == x.RotateLeft(7) && Rotate(x, 9) == x.RotateLeft(9)
    ensures Rotate(x, 13) == x.RotateLeft(13) && Rotate(x, 18) == x.RotateLeft(18)
  {}

  /** Rotating by any amount r in 1..31 and then by 32 - r gives the word back. */
  lemma RotateBack(x: bv32, rot: bv32)
    requires 0 < rot < 32
    ensures Rotate(Rotate(x, rot), 32 - rot) == x
  {}

  // ---------------------------------------------------------------------------
  // Quarter round

  /** One line of `salsa_QR`: `t ^= rotate(u + v, rot)`, as the new value of `t`. */
  function XorRotate(t: bv32, u: bv32, v: bv32, rot: bv32): bv32
  {
    t ^ Rotate(u + v, rot)
  }

  /** Applying the same line twice restores the word: each line can be undone. */
  lemma XorRotateTwice(t: bv32, u: bv32, v: bv32, rot: bv32)
    ensures XorRotate(XorRotate(t, u, v, rot), u, v, rot) == t
  {}

  /** That line on the words of a block: word `i` is updated from words `j` and `k`. */
  function Step(s: seq<bv32>, i: nat, j: nat, k: nat, rot: bv32): (r: seq<bv32>)
    requires i < |s| && j < |s| && k < |s|
    ensures |r| == |s|
  {
    s[i := XorRotate(s[i], s[j], s[k], rot)]
  }

  /** When `i` is neither source, a second step restores the block. */
  lemma StepUndo(s: seq<bv32>, i: nat, j: nat, k: nat, rot: bv32)
    requires i < |s| && j < |s| && k < |s| && i != j && i != k
    ensures Step(Step(s, i, j, k, rot), i, j, k, rot) == s
  {
    XorRotateTwice(s[i], s[j], s[k], rot);
  }

  /** Four distinct word positions. */
  predicate Distinct(n: nat, a: nat, b: nat, c: nat, d: nat)
  {
    a < n && b < n && c < n && d < n && a != b && a != c && a != d && b != c && b != d && c != d
  }

  /**
   * The quarter round of section 3 of the Salsa20 specification on words
   * a, b, c, d of a block: b, then c, then d, then a, each from the words
   * already updated.
   */
  function QuarterRound(s: seq<bv32>, a: nat, b: nat, c: nat, d: nat): (r: seq<bv32>)
    requires Distinct(|s|, a, b, c, d)
    ensures |r| == |s|
  {
    var s1 := Step(s, b, a, d, 7);
    var s2 := Step(s1, c, b, a, 9);
    var s3 := Step(s2, d, c, b, 13);
    Step(s3, a, d, c, 18)
  }

  /** The quarter round run backwards: a, d, c, b. */
  function InverseQuarterRound(s: seq<bv32>, a: nat, b: nat, c: nat, d: nat): (r: seq<bv32>)
    requires Distinct(|s|, a, b, c, d)
    ensures |r| == |s|
  {
    var s1 := Step(s, a, d, c, 18);
    var s2 := Step(s1, d, c, b, 13);
    var s3 := Step(s2, c, b, a, 9);
    Step(s3, b, a, d, 7)
  }

  /** The quarter round is invertible. */
  lemma QuarterRoundInverse(s: seq<bv32>, a: nat, b: nat, c: nat, d: nat)
    requires Distinct(|s|, a, b, c, d)
    ensures InverseQuarterRound(QuarterRound(s, a, b, c, d), a, b, c, d) == s
  {
    var s1 := Step(s, b, a, d, 7);
    var s2 := Step(s1, c, b, a, 9);
    var s3 := Step(s2, d, c, b, 13);
    StepUndo(s3, a, d, c, 18);
    StepUndo(s2, d, c, b, 13);
    StepUndo(s1, c, b, a, 9);
    StepUndo(s, b, a, d, 7);
  }

  /** The quarter round leaves every other word alone. */
  lemma QuarterRoundFrame(s: seq<bv32>, a: nat, b: nat, c: nat, d: nat, n: nat)
    requires Distinct(|s|, a, b, c, d) && n < |s| && n != a && n != b && n != c && n != d
    ensures QuarterRound(s, a, b, c, d)[n] == s[n]
  {}

  /** `salsa_QR` on four distinct words of the block, updated in place. */
  method QuarterRoundAt(x: array<bv32>, a: nat, b: nat, c: nat, d: nat)
    requires Distinct(x.Length, a, b, c, d)
    modifies x
    ensures x[..] == QuarterRound(old(x[..]), a, b, c, d)
  {
    x[b] := XorRotate(x[b], x[a], x[d], 7);
    x[c] := XorRotate(x[c], x[b], x[a], 9);
    x[d] := XorRotate(x[d], x[c], x[b], 13);
    x[a] := XorRotate(x[a], x[d], x[c], 18);
  }

  /** Section 3 of the Salsa20 specification word by word: each new word uses the words already updated. */
  lemma QuarterRoundWords(s: seq<bv32>, a: nat, b: nat, c: nat, d: nat)
    requires Distinct(|s|, a, b, c, d)
    ensures var r := QuarterRound(s, a, b, c, d);
      && r[b] == XorRotate(s[b], s[a], s[d], 7)
      && r[c] == XorRotate(s[c], r[b], s[a], 9)
      && r[d] == XorRotate(s[d], r[c], r[b], 13)
      && r[a] == XorRotate(s[a], r[d], r[c], 18)
  {}

  /** The two quarter-round examples of section 3 of the Salsa20 specification. */
  lemma QuarterRoundExamples()
    ensures QuarterRound([1, 0, 0, 0], 0, 1, 2, 3) == [0x0800_8145, 0x80, 0x0001_0200, 0x2050_0000]
    ensures QuarterRound([0xe7e8_c006, 0xc4f9_417d, 0x6479_b4b2, 0x68c6_7137], 0, 1, 2, 3)
         == [0xe876_d72b, 0x9361_dfd5, 0xf146_0244, 0x9485_41a3]
  {}

  // ---------------------------------------------------------------------------
  // Column, row and double rounds

  /** The word positions a quarter round is applied to, in argument order. */
  datatype Quad = Quad(a: nat, b: nat, c: nat, d: nat)

  predicate Fits(n: nat, q: Quad)
  {
    Distinct(n, q.a, q.b, q.c, q.d)
  }

  function Apply(s: seq<bv32>, q: Quad): (r: seq<bv32>)
    requires Fits(|s|, q)
    ensures |r| == |s|
  {
    QuarterRound(s, q.a, q.b, q.c, q.d)
  }

  function Unapply(s: seq<bv32>, q: Quad): (r: seq<bv32>)
    requires Fits(|s|, q)
    ensures |r| == |s|
  {
    InverseQuarterRound(s, q.a, q.b, q.c, q.d)
  }

  /** The two halves of a pass of the loop of `salsa_double_round`. */
  datatype Half = Columns | Rows

  /**
   * The `k`-th quarter round of a half, in the order of the loop body:
   * the columns start at the diagonal and go down, the rows start at the
   * diagonal and go right (sections 4 and 5 of the Salsa20 specification).
   */
  function QuarterOf(h: Half, k: nat): (q: Quad)
    requires k < 4
    ensures Fits(DataWords, q)
  {
    match h
    case Columns =>
      if k == 0 then Quad(0, 4, 8, 12)
      else if k == 1 then Quad(5, 9, 13, 1)
      else if k == 2 then Quad(10, 14, 2, 6)
      else Quad(15, 3, 7, 11)
    case Rows =>
      if k == 0 then Quad(0, 1, 2, 3)
      else if k == 1 then Quad(5, 6, 7, 4)
      else if k == 2 then Quad(10, 11, 8, 9)
      else Quad(15, 12, 13, 14)
  }

  /** The first `k` quarter rounds of a half. */
  function QuarterRounds(s: seq<bv32>, h: Half, k: nat): (r: seq<bv32>)
    requires IsBlock(s) && k <= 4
    ensures IsBlock(r)
  {
    if k == 0 then s else Apply(QuarterRounds(s, h, k - 1), QuarterOf(h, k - 1))
  }

  /** The first `k` quarter rounds of a half undone, last first. */
  function InverseQuarterRounds(s: seq<bv32>, h: Half, k: nat): (r: seq<bv32>)
    requires IsBlock(s) && k <= 4
    ensures IsBlock(r)
    decreases k
  {
    if k == 0 then s else InverseQuarterRounds(Unapply(s, QuarterOf(h, k - 1)), h, k - 1)
  }

  /** Undoing the last of `k` quarter rounds leaves the first `k - 1`. */
  lemma QuarterRoundsPeel(s: seq<bv32>, h: Half, k: nat)
    requires IsBlock(s) && 0 < k <= 4
    ensures InverseQuarterRounds(QuarterRounds(s, h, k), h, k)
         == InverseQuarterRounds(QuarterRounds(s, h, k - 1), h, k - 1)
  {
    var q := QuarterOf(h, k - 1);
    var t := QuarterRounds(s, h, k - 1);
    QuarterRoundInverse(t, q.a, q.b, q.c, q.d);
  }

  lemma {:induction false} QuarterRoundsInverse(s: seq<bv32>, h: Half, k: nat)
    requires IsBlock(s) && k <= 4
    ensures InverseQuarterRounds(QuarterRounds(s, h, k), h, k) == s
  {
    if k > 0 {
      QuarterRoundsPeel(s, h, k);
      QuarterRoundsInverse(s, h, k - 1);
    }
  }

  /** Section 5 of the Salsa20 specification. */
  function ColumnRound(s: seq<bv32>): (r: seq<bv32>)
    requires IsBlock(s)
    ensures IsBlock(r)
  {
    QuarterRounds(s, Columns, 4)
  }

  /** Section 4 of the Salsa20 specification. */
  function RowRound(s: seq<bv32>): (r: seq<bv32>)
    requires IsBlock(s)
    ensures IsBlock(r)
  {
    QuarterRounds(s, Rows, 4)
  }

  /** The column round is the four column lines of the loop body, in order. */
  lemma ColumnRoundSteps(s: seq<bv32>)
    requires IsBlock(s)
    ensures ColumnRound(s) == QuarterRound(QuarterRound(QuarterRound(QuarterRound(s, 0, 4, 8, 12), 5, 9, 13, 1), 10, 14, 2, 6), 15, 3, 7, 11)
  {
    assert QuarterRounds(s, Columns, 1) == Apply(s, QuarterOf(Columns, 0));
    assert QuarterRounds(s, Columns, 2) == Apply(QuarterRounds(s, Columns, 1), QuarterOf(Columns, 1));
    assert QuarterRounds(s, Columns, 3) == Apply(QuarterRounds(s, Columns, 2), QuarterOf(Columns, 2));
    assert QuarterRounds(s, Columns, 4) == Apply(QuarterRounds(s, Columns, 3), QuarterOf(Columns, 3));
  }

  /** The row round is the four row lines of the loop body, in order. */
  lemma RowRoundSteps(s: seq<bv32>)
    requires IsBlock(s)
    ensures RowRound(s) == QuarterRound(QuarterRound(QuarterRound(QuarterRound(s, 0, 1, 2, 3), 5, 6, 7, 4), 10, 11, 8, 9), 15, 12, 13, 14)
  {
    assert QuarterRounds(s, Rows, 1) == Apply(s, QuarterOf(Rows, 0));
    assert QuarterRounds(s, Rows, 2) == Apply(QuarterRounds(s, Rows, 1), QuarterOf(Rows, 1));
    assert QuarterRounds(s, Rows, 3) == Apply(QuarterRounds(s, Rows, 2), QuarterOf(Rows, 2));
    assert QuarterRounds(s, Rows, 4) == Apply(QuarterRounds(s, Rows, 3), QuarterOf(Rows, 3));
  }

  /** One pass of the loop: a column round, then a row round (section 6 of the Salsa20 specification). */
  function DoubleRound(s: seq<bv32>): (r: seq<bv32>)
    requires IsBlock(s)
    ensures IsBlock(r)
  {
    RowRound(ColumnRound(s))
  }

  /** Undoes one double round. */
  function InverseDoubleRound(s: seq<bv32>): (r: seq<bv32>)
    requires IsBlock(s)
    ensures IsBlock(r)
  {
    InverseQuarterRounds(InverseQuarterRounds(s, Rows, 4), Columns, 4)
  }

  /** A double round loses nothing: it permutes the blocks. */
  lemma DoubleRoundInverse(s: seq<bv32>)
    requires IsBlock(s)
    ensures InverseDoubleRound(DoubleRound(s)) == s
  {
    QuarterRoundsInverse(ColumnRound(s), Rows, 4);
    QuarterRoundsInverse(s, Columns, 4);
  }

  lemma DoubleRoundInjective(s: seq<bv32>, t: seq<bv32>)
    requires IsBlock(s) && IsBlock(t) && DoubleRound(s) == DoubleRound(t)
    ensures s == t
  {
    DoubleRoundInverse(s);
    DoubleRoundInverse(t);
  }

  /** `n` double rounds. */
  function DoubleRounds(s: seq<bv32>, n: nat): (r: seq<bv32>)
    requires IsBlock(s)
    ensures IsBlock(r)
  {
    if n == 0 then s else DoubleRound(DoubleRounds(s, n - 1))
  }

  lemma DoubleRoundsNext(s: seq<bv32>, n: nat)
    requires IsBlock(s)
    ensures DoubleRounds(s, n + 1) == DoubleRound(DoubleRounds(s, n))
  {}

  /** Addition modulo 2^32, as `uint32_t` addition. */
  function Add(x: bv32, y: bv32): bv32
  {
    x + y
  }

  /** Word-wise sum modulo 2^32. */
  function AddWords(x: seq<bv32>, y: seq<bv32>): (r: seq<bv32>)
    requires |x| == |y|
    ensures |r| == |x| && forall i :: 0 <= i < |x| ==> r[i] == Add(x[i], y[i])
  {
    seq(|x|, i requires 0 <= i < |x| => Add(x[i], y[i]))
  }

  /**
   * The Salsa20 hash of section 8 of the Salsa20 specification: ten double
   * rounds, then the input added word by word.
   */
  function Hash(s: seq<bv32>): (r: seq<bv32>)
    requires IsBlock(s)
    ensures IsBlock(r)
  {
    AddWords(DoubleRounds(s, Rounds / 2), s)
  }

  /** One pass of the loop of `salsa_double_round`, in place. */
  method DoubleRoundAt(x: array<bv32>)
    requires x.Length == DataWords
    modifies x
    ensures x[..] == DoubleRound(old(x[..]))
  {
    ColumnRoundSteps(x[..]);
    RowRoundSteps(QuarterRound(QuarterRound(QuarterRound(QuarterRound(x[..], 0, 4, 8, 12), 5, 9, 13, 1), 10, 14, 2, 6), 15, 3, 7, 11));
    QuarterRoundAt(x, 0, 4, 8, 12);
    QuarterRoundAt(x, 5, 9, 13, 1);
    QuarterRoundAt(x, 10, 14, 2, 6);
    QuarterRoundAt(x, 15, 3, 7, 11);
    QuarterRoundAt(x, 0, 1, 2, 3);
    QuarterRoundAt(x, 5, 6, 7, 4);
    QuarterRoundAt(x, 10, 11, 8, 9);
    QuarterRoundAt(x, 15, 12, 13, 14);
  }

  /** The second loop of `salsa_double_round`: add the saved words back, word by word. */
  method AddInto(block: array<bv32>, saved: seq<bv32>)
    requires block.Length == |saved|
    modifies block
    ensures block[..] == AddWords(old(block[..]), saved)
  {
    var j := 0;
    while j < block.Length
      invariant 0 <= j <= block.Length
      invariant forall k :: 0 <= k < j ==> block[k] == Add(old(block[k]), saved[k])
      invariant forall k :: j <= k < block.Length ==> block[k] == old(block[k])
    {
      block[j] := Add(block[j], saved[j]);
      j := j + 1;
    }
  }

  /**
   * `salsa_double_round`: the Salsa20 hash of the block, in place. The
   * original words are saved first and added back after the rounds.
   */
  method HashBlock(block: array<bv32>)
    requires block.Length == DataWords
    modifies block
    ensures block[..] == Hash(old(block[..]))
  {
    var saved := block[..];
    var i := 0;
    ghost var n := 0;
    while i < Rounds
      invariant i == 2 * n && i <= Rounds
      invariant block[..] == DoubleRounds(saved, n)
    {
      DoubleRoundsNext(saved, n);
      DoubleRoundAt(block);
      i, n := i + 2, n + 1;
    }
    AddInto(block, saved);
  }

  // ---------------------------------------------------------------------------
  // Key expansion

  /** The low and high 32-bit halves of a 64-bit counter. */
  function Low(x: bv64): bv32
  {
    (x & 0xffff_ffff) as bv32
  }

  function High(x: bv64): bv32
  {
    (x >> 32) as bv32
  }

  /** The 64-bit value with the given halves. */
  function Join(lo: bv32, hi: bv32): bv64
  {
    ((hi as bv64) << 32) | (lo as bv64)
  }

  /** The two halves lose nothing. */
  lemma JoinHalves(x: bv64)
    ensures Join(Low(x), High(x)) == x
  {}

  lemma HalvesOfJoin(lo: bv32, hi: bv32)
    ensures Low(Join(lo, hi)) == lo && High(Join(lo, hi)) == hi
  {}

  /**
   * `salsa_init`: the block of section 9 of the Salsa20 specification for a
   * 32-byte key, with the nonce and the block number in the positions of
   * the 16-byte input, low word first.
   */
  function InitBlock(key: seq<bv32>, nonce: bv64, blockNumber: bv64): (r: seq<bv32>)
    requires |key| == KeyWords
    ensures IsBlock(r)
  {
    [Sigma0, key[0], key[1], key[2],
     key[3], Sigma1, Low(nonce), High(nonce),
     Low(blockNumber), High(blockNumber), Sigma2, key[4],
     key[5], key[6], key[7], Sigma3]
  }

  /** The key, nonce and block number as they are laid out in a block. */
  function KeyOf(s: seq<bv32>): (key: seq<bv32>)
    requires IsBlock(s)
    ensures |key| == KeyWords
  {
    s[1..5] + s[11..15]
  }

  function NonceOf(s: seq<bv32>): bv64
    requires IsBlock(s)
  {
    Join(s[6], s[7])
  }

  function BlockNumberOf(s: seq<bv32>): bv64
    requires IsBlock(s)
  {
    Join(s[8], s[9])
  }

  /** The diagonal of an initial block holds the four constants. */
  predicate HasConstants(s: seq<bv32>)
    requires IsBlock(s)
  {
    s[0] == Sigma0 && s[5] == Sigma1 && s[10] == Sigma2 && s[15] == Sigma3
  }

  /** The layout places every input: key, nonce and block number can be read back. */
  lemma InitBlockRecovers(key: seq<bv32>, nonce: bv64, blockNumber: bv64)
    requires |key| == KeyWords
    ensures var s := InitBlock(key, nonce, blockNumber);
      HasConstants(s) && KeyOf(s) == key && NonceOf(s) == nonce && BlockNumberOf(s) == blockNumber
  {
    var s := InitBlock(key, nonce, blockNumber);
    assert KeyOf(s) == key;
    JoinHalves(nonce);
    JoinHalves(blockNumber);
  }

  /** Conversely every block with the constants is the initial block of what it holds. */
  lemma InitBlockOf(s: seq<bv32>)
    requires IsBlock(s) && HasConstants(s)
    ensures InitBlock(KeyOf(s), NonceOf(s), BlockNumberOf(s)) == s
  {
    HalvesOfJoin(s[6], s[7]);
    HalvesOfJoin(s[8], s[9]);
  }

  // ---------------------------------------------------------------------------
  // Encryption

  /** The keystream block for one block number: the hash of the initial block. */
  function Keystream(key: seq<bv32>, nonce: bv64, blockNumber: bv64): (r: seq<bv32>)
    requires |key| == KeyWords
    ensures IsBlock(r)
  {
    Hash(InitBlock(key, nonce, blockNumber))
  }

  function Xor(x: bv32, y: bv32): bv32
  {
    x ^ y
  }

  lemma XorTwice(x: bv32, y: bv32)
    ensures Xor(Xor(x, y), y) == x
  {}

  /** Word-wise exclusive or. */
  function XorWords(x: seq<bv32>, y: seq<bv32>): (r: seq<bv32>)
    requires |x| == |y|
    ensures |r| == |x| && forall i :: 0 <= i < |x| ==> r[i] == Xor(x[i], y[i])
  {
    seq(|x|, i requires 0 <= i < |x| => Xor(x[i], y[i]))
  }

  /** The ciphertext of one block of sixteen words (section 10 of the Salsa20 specification). */
  function EncryptBlock(data: seq<bv32>, key: seq<bv32>, nonce: bv64, blockNumber: bv64): (r: seq<bv32>)
    requires IsBlock(data) && |key| == KeyWords
    ensures IsBlock(r)
  {
    XorWords(data, Keystream(key, nonce, blockNumber))
  }

  /** Encrypting again with the same key, nonce and block number decrypts. */
  lemma EncryptBlockTwice(data: seq<bv32>, key: seq<bv32>, nonce: bv64, blockNumber: bv64)
    requires IsBlock(data) && |key| == KeyWords
    ensures EncryptBlock(EncryptBlock(data, key, nonce, blockNumber), key, nonce, blockNumber) == data
  {
    var k := Keystream(key, nonce, blockNumber);
    forall i | 0 <= i < |data|
      ensures XorWords(XorWords(data, k), k)[i] == data[i]
    {
      XorTwice(data[i], k[i]);
    }
  }

  /** The loop of `salsa_encrypt`: each output word is the input word XOR the keystream word. */
  method XorInto(dataIn: array<bv32>, keystream: array<bv32>, cipherOut: array<bv32>)
    requires dataIn.Length == keystream.Length == cipherOut.Length && keystream != cipherOut
    modifies cipherOut
    ensures cipherOut[..] == XorWords(old(dataIn[..]), keystream[..])
  {
    var i := 0;
    while i < cipherOut.Length
      invariant 0 <= i <= cipherOut.Length
      invariant forall k :: i <= k < dataIn.Length ==> dataIn[k] == old(dataIn[k])
      invariant forall k :: 0 <= k < i ==> cipherOut[k] == Xor(old(dataIn[k]), keystream[k])
    {
      cipherOut[i] := Xor(dataIn[i], keystream[i]);
      i := i + 1;
    }
  }

  // ---------------------------------------------------------------------------
  // Byte order

  /** Byte `k` of a word, counting from the least significant. */
  function ByteAt(w: bv32, k: nat): bv8
    requires k < 4
  {
    if k == 0 then (w & 0xff) as bv8
    else if k == 1 then ((w >> 8) & 0xff) as bv8
    else if k == 2 then ((w >> 16) & 0xff) as bv8
    else (w >> 24) as bv8
  }

  /** `salsa_little_endian`: the four bytes of the word, each moved by mask and shift. */
  function LittleEndian(w: bv32): bv32
  {
    ((w & 0xff00_0000) >> 24)
    | ((w & 0x00ff_0000) >> 8)
    | ((w & 0x0000_ff00) << 8)
    | ((w & 0x0000_00ff) << 24)
  }

  /** The byte order is reversed. */
  lemma LittleEndianReverses(w: bv32)
    ensures ByteAt(LittleEndian(w), 0) == ByteAt(w, 3)
    ensures ByteAt(LittleEndian(w), 1) == ByteAt(w, 2)
    ensures ByteAt(LittleEndian(w), 2) == ByteAt(w, 1)
    ensures ByteAt(LittleEndian(w), 3) == ByteAt(w, 0)
  {}

  /** A word is determined by its bytes. */
  lemma BytesDetermine(v: bv32, w: bv32)
    requires ByteAt(v, 0) == ByteAt(w, 0) && ByteAt(v, 1) == ByteAt(w, 1)
    requires ByteAt(v, 2) == ByteAt(w, 2) && ByteAt(v, 3) == ByteAt(w, 3)
    ensures v == w
  {}

  /** Swapping twice gives the word back. */
  lemma LittleEndianInvolution(w: bv32)
    ensures LittleEndian(LittleEndian(w)) == w
  {}

  /** `salsa_state_t`: the key, the 64-bit counters and the block. */
  class State {
    var key: seq<bv32>
    var blockNumber: bv64
    var nonce: bv64
    const block: array<bv32>

    predicate Valid()
      reads this
    {
      |key| == KeyWords && block.Length == DataWords
    }

    constructor(key: seq<bv32>, nonce: bv64, blockNumber: bv64)
      requires |key| == KeyWords
      ensures Valid() && fresh(block)
      ensures this.key == key && this.nonce == nonce && this.blockNumber == blockNumber
    {
      this.key := key;
      this.nonce := nonce;
      this.blockNumber := blockNumber;
      block := new bv32[DataWords];
    }

    /** `salsa_init`: fill the block from the key, nonce and block number, which are unchanged. */
    method Init()
      requires Valid()
      modifies block
      ensures block[..] == InitBlock(key, nonce, blockNumber)
    {
      var words := InitBlock(key, nonce, blockNumber);
      forall i | 0 <= i < DataWords {
        block[i] := words[i];
      }
    }

    /**
     * `salsa_encrypt`: the keystream of the current block number, which is
     * then incremented (wrapping at 2^64), XORed into the output. The output
     * may be the input itself.
     */
    method Encrypt(dataIn: array<bv32>, cipherOut: array<bv32>)
      requires Valid() && dataIn.Length == DataWords && cipherOut.Length == DataWords
      requires dataIn != block && cipherOut != block
      modifies this, block, cipherOut
      ensures Valid() && key == old(key) && nonce == old(nonce)
      ensures blockNumber == old(blockNumber) + 1
      ensures block[..] == Keystream(key, nonce, old(blockNumber))
      ensures cipherOut[..] == EncryptBlock(old(dataIn[..]), key, nonce, old(blockNumber))
    {
      Init();
      blockNumber := blockNumber + 1;
      HashBlock(block);
      XorInto(dataIn, block, cipherOut);
    }
  }
}

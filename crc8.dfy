/**
 * The CRC-8 of the RP2040 submission: the reflected Dallas/Maxim 1-Wire
 * CRC (polynomial x^8 + x^5 + x^4 + 1, reflected as 0x8C), starting from 0
 * with no final XOR, computed bit by bit with the least significant bit of
 * each byte first.
 */
module Crc8 {

  /** The reflected polynomial. */
  const Polynomial: bv8 := 0x8C

  /** One pass of the inner loop: shift the register and feed in the low bit of `byte`. */
  function BitStep(crc: bv8, byte: bv8): bv8
  {
    var sum := (crc ^ byte) & 0x01;
    var shifted := crc >> 1;
    if sum != 0 then shifted ^ Polynomial else shifted
  }

  /** The last `j` passes of the inner loop, with `byte` already shifted to the next bit. */
  function Bits(crc: bv8, byte: bv8, j: nat): bv8
    decreases j
  {
    if j == 0 then crc else Bits(BitStep(crc, byte), byte >> 1, j - 1)
  }

  /** The eight passes of the inner loop for one byte. */
  function UpdateByte(crc: bv8, byte: bv8): bv8
  {
    Bits(crc, byte, 8)
  }

  /** The register after feeding in `data` in order, starting from `crc`. */
  function CrcFrom(crc: bv8, data: seq<bv8>): bv8
    decreases |data|
  {
    if data == [] then crc else CrcFrom(UpdateByte(crc, data[0]), data[1..])
  }

  /** `crc8` of the whole sequence: the register starts at 0 and is returned as it is. */
  function Crc(data: seq<bv8>): bv8
  {
    CrcFrom(0, data)
  }

  /** `crc8(data, length)`: the outer loop over `length` bytes, the inner one over their 8 bits. */
  method Crc8(data: array<bv8>, length: nat) returns (crc: bv8)
    requires length <= data.Length
    ensures crc == Crc(data[..length])
  {
    crc := 0x00;
    var i := 0;
    while i < length
      invariant 0 <= i <= length
      invariant crc == Crc(data[..i])
    {
      var byte := data[i];
      ghost var start := crc;
      var j := 8;
      while j > 0
        invariant 0 <= j <= 8
        invariant Bits(crc, byte, j) == UpdateByte(start, data[i])
      {
        var sum := (crc ^ byte) & 0x01;
        crc := crc >> 1;
        if sum != 0 {
          crc := crc ^ Polynomial;
        }
        byte := byte >> 1;
        j := j - 1;
      }
      CrcAppendByte(data[..i], data[i]);
      assert data[..i + 1] == data[..i] + [data[i]];
      i := i + 1;
    }
  }

  // ---------------------------------------------------------------------------
  // Properties

  /** Length 0 gives 0x00. */
  lemma CrcEmpty()
    ensures Crc([]) == 0
  {}

  /** The bytes are consumed in order: the CRC of a concatenation continues from the CRC of the prefix. */
  lemma {:induction false} CrcFromAppend(crc: bv8, a: seq<bv8>, b: seq<bv8>)
    ensures CrcFrom(crc, a + b) == CrcFrom(CrcFrom(crc, a), b)
    decreases |a|
  {
    if a == [] {
      assert a + b == b;
    } else {
      assert (a + b)[0] == a[0] && (a + b)[1..] == a[1..] + b;
      CrcFromAppend(UpdateByte(crc, a[0]), a[1..], b);
    }
  }

  lemma CrcAppend(a: seq<bv8>, b: seq<bv8>)
    ensures Crc(a + b) == CrcFrom(Crc(a), b)
  {
    CrcFromAppend(0, a, b);
  }

  lemma CrcAppendByte(a: seq<bv8>, x: bv8)
    ensures Crc(a + [x]) == UpdateByte(Crc(a), x)
  {
    CrcAppend(a, [x]);
  }

  /** A zero register stays zero under zero bits. */
  lemma {:induction false} BitsZero(j: nat)
    ensures Bits(0, 0, j) == 0
  {
    if j > 0 {
      BitsZero(j - 1);
    }
  }

  /** An all-zero input of any length gives 0x00. */
  lemma {:induction false} CrcZeros(data: seq<bv8>)
    requires forall i :: 0 <= i < |data| ==> data[i] == 0
    ensures Crc(data) == 0
    decreases |data|
  {
    if data != [] {
      BitsZero(8);
      CrcZeros(data[1..]);
    }
  }

  /** Exclusive or of two bytes. */
  function Xor(x: bv8, y: bv8): bv8
  {
    x ^ y
  }

  /** Byte-wise exclusive or of two inputs of the same length. */
  function XorBytes(a: seq<bv8>, b: seq<bv8>): (r: seq<bv8>)
    requires |a| == |b|
    ensures |r| == |a| && forall i :: 0 <= i < |a| ==> r[i] == Xor(a[i], b[i])
  {
    seq(|a|, i requires 0 <= i < |a| => Xor(a[i], b[i]))
  }

  /** One pass of the inner loop is linear in the register and the byte together. */
  lemma BitStepXor(c: bv8, d: bv8, x: bv8, y: bv8)
    ensures BitStep(Xor(c, d), Xor(x, y)) == Xor(BitStep(c, x), BitStep(d, y))
  {
    var s := (Xor(c, d) ^ Xor(x, y)) & 0x01;
    var s1 := (c ^ x) & 0x01;
    var s2 := (d ^ y) & 0x01;
    LowBitXor(c, d, x, y);
    ShiftXor(c, d);
    if s1 != 0 && s2 != 0 {
      PolynomialCancels(c >> 1, d >> 1);
    }
  }

  lemma LowBitXor(c: bv8, d: bv8, x: bv8, y: bv8)
    ensures (Xor(c, d) ^ Xor(x, y)) & 0x01 != 0 <==> ((c ^ x) & 0x01 != 0) != ((d ^ y) & 0x01 != 0)
  {}

  lemma PolynomialCancels(u: bv8, v: bv8)
    ensures Xor(u ^ Polynomial, v ^ Polynomial) == Xor(u, v)
  {}

  lemma ShiftXor(x: bv8, y: bv8)
    ensures Xor(x, y) >> 1 == Xor(x >> 1, y >> 1)
  {}

  lemma {:induction false} BitsXor(c: bv8, d: bv8, x: bv8, y: bv8, j: nat)
    ensures Bits(Xor(c, d), Xor(x, y), j) == Xor(Bits(c, x, j), Bits(d, y, j))
    decreases j
  {
    if j > 0 {
      BitStepXor(c, d, x, y);
      ShiftXor(x, y);
      BitsXor(BitStep(c, x), BitStep(d, y), x >> 1, y >> 1, j - 1);
    }
  }

  lemma {:induction false} CrcFromXor(c: bv8, d: bv8, a: seq<bv8>, b: seq<bv8>)
    requires |a| == |b|
    ensures CrcFrom(Xor(c, d), XorBytes(a, b)) == Xor(CrcFrom(c, a), CrcFrom(d, b))
    decreases |a|
  {
    if a != [] {
      var r := XorBytes(a, b);
      assert r[1..] == XorBytes(a[1..], b[1..]);
      BitsXor(c, d, a[0], b[0], 8);
      CrcFromXor(UpdateByte(c, a[0]), UpdateByte(d, b[0]), a[1..], b[1..]);
    }
  }

  /** With a zero start and no final XOR the CRC is linear: crc8(a XOR b) == crc8(a) XOR crc8(b). */
  lemma CrcXor(a: seq<bv8>, b: seq<bv8>)
    requires |a| == |b|
    ensures Crc(XorBytes(a, b)) == Xor(Crc(a), Crc(b))
  {
    assert Xor(0, 0) == 0;
    CrcFromXor(0, 0, a, b);
  }

  /** The register after each byte of "123456789". */
  lemma CheckValueSteps()
    ensures UpdateByte(0x00, 0x31) == 0xE0
    ensures UpdateByte(0xE0, 0x32) == 0xEB
    ensures UpdateByte(0xEB, 0x33) == 0x95
    ensures UpdateByte(0x95, 0x34) == 0xF1
    ensures UpdateByte(0xF1, 0x35) == 0xAB
    ensures UpdateByte(0xAB, 0x36) == 0xEC
    ensures UpdateByte(0xEC, 0x37) == 0x77
    ensures UpdateByte(0x77, 0x38) == 0x07
    ensures UpdateByte(0x07, 0x39) == 0xA1
  {}

  /** The check value of the CRC-8/MAXIM catalogue entry: "123456789" gives 0xA1. */
  lemma CrcCheckValue()
    ensures Crc([0x31, 0x32, 0x33, 0x34, 0x35, 0x36, 0x37, 0x38, 0x39]) == 0xA1
  {
    CheckValueSteps();
    assert CrcFrom(0x00, [0x31, 0x32, 0x33, 0x34, 0x35, 0x36, 0x37, 0x38, 0x39]) == CrcFrom(0xE0, [0x32, 0x33, 0x34, 0x35, 0x36, 0x37, 0x38, 0x39]);
    assert CrcFrom(0xE0, [0x32, 0x33, 0x34, 0x35, 0x36, 0x37, 0x38, 0x39]) == CrcFrom(0xEB, [0x33, 0x34, 0x35, 0x36, 0x37, 0x38, 0x39]);
    assert CrcFrom(0xEB, [0x33, 0x34, 0x35, 0x36, 0x37, 0x38, 0x39]) == CrcFrom(0x95, [0x34, 0x35, 0x36, 0x37, 0x38, 0x39]);
    assert CrcFrom(0x95, [0x34, 0x35, 0x36, 0x37, 0x38, 0x39]) == CrcFrom(0xF1, [0x35, 0x36, 0x37, 0x38, 0x39]);
    assert CrcFrom(0xF1, [0x35, 0x36, 0x37, 0x38, 0x39]) == CrcFrom(0xAB, [0x36, 0x37, 0x38, 0x39]);
    assert CrcFrom(0xAB, [0x36, 0x37, 0x38, 0x39]) == CrcFrom(0xEC, [0x37, 0x38, 0x39]);
    assert CrcFrom(0xEC, [0x37, 0x38, 0x39]) == CrcFrom(0x77, [0x38, 0x39]);
    assert CrcFrom(0x77, [0x38, 0x39]) == CrcFrom(0x07, [0x39]);
    assert CrcFrom(0x07, [0x39]) == CrcFrom(0xA1, []);
  }
}

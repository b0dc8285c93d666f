/** CRC-32 with the IEEE polynomial (the CRC of ISO/IEC 3309 and IEEE 802.3),
    as Go's `hash/crc32.ChecksumIEEE` computes it: the bit-reflected
    polynomial 0xEDB88320, an initial register of all ones and a final
    complement.  Computed here one bit at a time. */
module Crc32 {

  type Bytes = seq<bv8>

  /** The IEEE 802.3 generator polynomial, bit-reflected. */
  const Poly: bv32 := 0xEDB8_8320

  /** One shift of the reflected CRC register. */
  function BitStep(c: bv32): bv32 {
    if c & 1 == 1 then (c >> 1) ^ Poly else c >> 1
  }

  /** Eight shifts of the register. */
  function Shift8(c: bv32): bv32 {
    BitStep(BitStep(BitStep(BitStep(BitStep(BitStep(BitStep(BitStep(c))))))))
  }

  /** Feeding one byte into the register: fold it into the low bits, then
      shift eight times. */
  function ByteStep(c: bv32, b: bv8): bv32 {
    Shift8(c ^ (b as bv32))
  }

  /** Feeding a whole byte string into the register, first byte first. */
  function Update(c: bv32, s: Bytes): bv32
    decreases |s|
  {
    if |s| == 0 then c else Update(ByteStep(c, s[0]), s[1..])
  }

  /** `crc32.ChecksumIEEE(s)`.  The checksum of the empty payload is 0,
      so an empty payload is indistinguishable from "checksum skipped". */
  function Checksum(s: Bytes): (c: bv32)
    ensures |s| == 0 ==> c == 0
  {
    !Update(0xFFFF_FFFF, s)
  }

  /** The register shift loses no information: the top bit of the result
      tells whether the polynomial was folded in, since the polynomial has
      its top bit set and a plain shift leaves it clear. */
  lemma BitStepInjective(a: bv32, b: bv32)
    requires BitStep(a) == BitStep(b)
    ensures a == b
  {
  }

  lemma Shift8Injective(p0: bv32, q0: bv32)
    requires Shift8(p0) == Shift8(q0)
    ensures p0 == q0
  {
    var p1, q1 := BitStep(p0), BitStep(q0);
    var p2, q2 := BitStep(p1), BitStep(q1);
    var p3, q3 := BitStep(p2), BitStep(q2);
    var p4, q4 := BitStep(p3), BitStep(q3);
    var p5, q5 := BitStep(p4), BitStep(q4);
    var p6, q6 := BitStep(p5), BitStep(q5);
    var p7, q7 := BitStep(p6), BitStep(q6);
    BitStepInjective(p7, q7);
    BitStepInjective(p6, q6);
    BitStepInjective(p5, q5);
    BitStepInjective(p4, q4);
    BitStepInjective(p3, q3);
    BitStepInjective(p2, q2);
    BitStepInjective(p1, q1);
    BitStepInjective(p0, q0);
  }

  /** For a fixed byte string, distinct starting registers give distinct
      final registers. */
  lemma {:induction false} UpdateInjective(a: bv32, b: bv32, s: Bytes)
    requires Update(a, s) == Update(b, s)
    ensures a == b
    decreases |s|
  {
    if |s| > 0 {
      UpdateInjective(ByteStep(a, s[0]), ByteStep(b, s[0]), s[1..]);
      ByteStepInjective(a, b, s[0]);
    }
  }

  /** Feeding `s + t` is feeding `s`, then `t`. */
  lemma {:induction false} UpdateAppend(c: bv32, s: Bytes, t: Bytes)
    ensures Update(c, s + t) == Update(Update(c, s), t)
    decreases |s|
  {
    if |s| > 0 {
      assert (s + t)[1..] == s[1..] + t;
      UpdateAppend(ByteStep(c, s[0]), s[1..], t);
    } else {
      assert s + t == t;
    }
  }

  /** Two payloads that differ in exactly one byte, the one between the
      common prefix `pre` and the common suffix `suf`, have different
      checksums. */
  lemma ChecksumDetectsByteChange(pre: Bytes, x: bv8, y: bv8, suf: Bytes)
    requires x != y
    ensures Checksum(pre + [x] + suf) != Checksum(pre + [y] + suf)
  {
    var c := Update(0xFFFF_FFFF, pre);
    var u, v := ByteStep(c, x), ByteStep(c, y);
    assert Update(0xFFFF_FFFF, pre + [x] + suf) == Update(u, suf) by {
      UpdateAppend(0xFFFF_FFFF, pre + [x], suf);
      UpdateAppend(0xFFFF_FFFF, pre, [x]);
      assert Update(c, [x]) == u;
    }
    assert Update(0xFFFF_FFFF, pre + [y] + suf) == Update(v, suf) by {
      UpdateAppend(0xFFFF_FFFF, pre + [y], suf);
      UpdateAppend(0xFFFF_FFFF, pre, [y]);
      assert Update(c, [y]) == v;
    }
    if Update(u, suf) == Update(v, suf) {
      UpdateInjective(u, v, suf);
      ByteStepInjectiveInByte(c, x, y);
      assert false;
    }
  }

  /** Feeding the same byte into two distinct registers keeps them distinct. */
  lemma ByteStepInjective(a: bv32, b: bv32, x: bv8)
    requires ByteStep(a, x) == ByteStep(b, x)
    ensures a == b
  {
    Shift8Injective(a ^ (x as bv32), b ^ (x as bv32));
    assert a == (a ^ (x as bv32)) ^ (x as bv32);
  }

  /** Two bytes fed into one register that give the same register are
      the same byte. */
  lemma ByteStepInjectiveInByte(c: bv32, x: bv8, y: bv8)
    requires ByteStep(c, x) == ByteStep(c, y)
    ensures x == y
  {
    Shift8Injective(c ^ (x as bv32), c ^ (y as bv32));
    assert (x as bv32) == c ^ (c ^ (x as bv32));
  }

  /** The standard check value of CRC-32/IEEE: the checksum of the ASCII
      string "123456789" is 0xCBF43926. */
  lemma CheckValue()
    ensures Checksum([0x31, 0x32, 0x33, 0x34, 0x35, 0x36, 0x37, 0x38, 0x39]) == 0xCBF4_3926
  {
  }
}

/**
 * The 32-bit FNV-1a string hash of `utility::hashFnv1a`, `utility::hashFnv1b` and the
 * `_fnv` user-defined literal.
 *
 * The source hashes a NUL-terminated `const char*`. Here the bytes at and after the pointer
 * are a `seq<bv8>` that contains a 0 somewhere; only the bytes before the first 0 are read.
 * Plain `char` is signed on MSVC, so a byte of 0x80 or above is sign-extended to `int`
 * before `h ^ *s` converts it to `unsigned int`: that conversion is written out in
 * `XorOperand`, and `DiffersFromOctetFnv1a` shows that it makes the result differ from the
 * FNV-1a of the IETF draft "The FNV Non-Cryptographic Hash Algorithm", which XORs octets.
 */
module Fnv {
  const Fnv1aBasis: bv32 := 0x811C9DC5

  /** The value of `*s` when plain `char` is a signed 8-bit type, as on MSVC. */
  function MsvcChar(b: bv8): (c: int)
    ensures -0x80 <= c < 0x80
    ensures c % 0x100 == b as int
    ensures c < 0 <==> b >= 0x80
  {
    if b < 0x80 then b as int else b as int - 0x100
  }

  /**
   * The right operand of `h ^ *s`: the `char` is promoted to `int` and then converted to
   * `unsigned int`. A byte from 0x80 up comes out sign-extended, with the 24 upper bits set.
   */
  function XorOperand(b: bv8): bv32
  {
    if b < 0x80 then b as bv32 else b as bv32 | 0xFFFF_FF00
  }

  /** The bit pattern of `XorOperand` is the C conversion of the signed `char` to `unsigned int`. */
  lemma XorOperandIsConvertedChar(b: bv8)
    ensures XorOperand(b) as int == MsvcChar(b) % 0x1_0000_0000
    ensures b < 0x80 ==> XorOperand(b) as int == b as int
    ensures b >= 0x80 ==> XorOperand(b) as int == 0xFFFF_FF00 + b as int
  {
  }

  /** `(h ^ x)` times the FNV prime 0x01000193 in `unsigned int` arithmetic, which wraps modulo 2^32. */
  function Round(h: bv32, x: bv32): bv32
  {
    (h ^ x) * 0x01000193
  }

  /** One round of `hashFnv1a`. */
  function Step1a(h: bv32, b: bv8): bv32
  {
    Round(h, XorOperand(b))
  }

  /**
   * One round of `hashFnv1b`: the XOR is widened to `unsigned long long`, multiplied there
   * and truncated back to its low 32 bits by the `static_cast<unsigned int>`.
   */
  function Step1b(h: bv32, b: bv8): bv32
  {
    (((h ^ XorOperand(b)) as bv64 * 0x01000193) & 0xFFFF_FFFF) as bv32
  }

  /** `hashFnv1a(s, h)`: stops at the first NUL and returns the running hash. */
  function HashFnv1a(s: seq<bv8>, h: bv32 := Fnv1aBasis): bv32
    requires 0 in s
    decreases |s|
  {
    if s[0] == 0 then h
    else
      assert s == [s[0]] + s[1..];
      HashFnv1a(s[1..], Step1a(h, s[0]))
  }

  /** `hashFnv1b(s, h)`: the same recursion with the widening multiply. */
  function HashFnv1b(s: seq<bv8>, h: bv32 := Fnv1aBasis): bv32
    requires 0 in s
    decreases |s|
  {
    if s[0] == 0 then h
    else
      assert s == [s[0]] + s[1..];
      HashFnv1b(s[1..], Step1b(h, s[0]))
  }

  /**
   * `"..."_fnv`: the compiler passes the literal's characters followed by a NUL; the length
   * argument is ignored, so an embedded NUL ends the hash early.
   */
  function FnvLiteral(s: seq<bv8>): bv32
  {
    assert (s + [0])[|s|] == 0;
    HashFnv1a(s + [0])
  }

  /**
   * Reference definition: the left fold of `Step1a` over a NUL-free byte string, taken
   * from the last byte backwards (the hash of a string is one round applied to the hash
   * of all but its last byte).
   */
  function Fold(data: seq<bv8>, h: bv32): bv32
    decreases |data|
  {
    if data == [] then h else Step1a(Fold(data[..|data| - 1], h), data[|data| - 1])
  }

  /** One round of FNV-1a as the IETF draft defines it: the octet is XORed zero-extended. */
  function OctetStep(h: bv32, b: bv8): bv32
  {
    Round(h, b as bv32)
  }

  /** The fold of `OctetStep`: FNV-1a of the draft over a byte string. */
  function OctetFold(data: seq<bv8>, h: bv32): bv32
    decreases |data|
  {
    if data == [] then h else OctetStep(OctetFold(data[..|data| - 1], h), data[|data| - 1])
  }

  /** The hash of a concatenation continues from the hash of the first part. */
  lemma {:induction false} FoldConcat(a: seq<bv8>, b: seq<bv8>, h: bv32)
    ensures Fold(a + b, h) == Fold(b, Fold(a, h))
    decreases |b|
  {
    if b == [] {
      assert a + b == a;
    } else {
      var n := |b| - 1;
      assert (a + b)[..|a + b| - 1] == a + b[..n];
      assert (a + b)[|a + b| - 1] == b[n];
      FoldConcat(a, b[..n], h);
    }
  }

  /** Folding a first byte is one round from the starting hash. */
  lemma FoldCons(c: bv8, rest: seq<bv8>, h: bv32)
    ensures Fold([c] + rest, h) == Fold(rest, Step1a(h, c))
  {
    FoldConcat([c], rest, h);
    assert [c][..0] == [];
  }

  /**
   * For a NUL-free prefix, `hashFnv1a` is the left fold of its rounds over that prefix,
   * whatever follows the terminating NUL.
   */
  lemma {:induction false} HashIsFold(data: seq<bv8>, tail: seq<bv8>, h: bv32)
    requires 0 !in data
    ensures 0 in data + [0] + tail
    ensures HashFnv1a(data + [0] + tail, h) == Fold(data, h)
    decreases |data|
  {
    var s := data + [0] + tail;
    assert s[|data|] == 0;
    if data != [] {
      assert s[0] == data[0];
      assert s[1..] == data[1..] + [0] + tail;
      HashIsFold(data[1..], tail, Step1a(h, data[0]));
      FoldCons(data[0], data[1..], h);
      assert [data[0]] + data[1..] == data;
    }
  }

  /** A non-NUL first character costs exactly one round: the hash is a left fold. */
  lemma HashUnfoldsOneChar(c: bv8, rest: seq<bv8>, h: bv32)
    requires c != 0 && 0 in rest
    ensures 0 in [c] + rest
    ensures HashFnv1a([c] + rest, h) == HashFnv1a(rest, Step1a(h, c))
  {
    assert ([c] + rest)[1..] == rest;
  }

  /** Concatenation law: hashing `a` then `s` equals hashing `s` from the hash of `a`. */
  lemma {:induction false} HashConcat(a: seq<bv8>, s: seq<bv8>, h: bv32)
    requires 0 !in a && 0 in s
    ensures 0 in a + s
    ensures HashFnv1a(a + s, h) == HashFnv1a(s, Fold(a, h))
    decreases |a|
  {
    var k :| 0 <= k < |s| && s[k] == 0;
    assert (a + s)[|a| + k] == 0;
    if a == [] {
      assert a + s == s;
    } else {
      assert (a + s)[0] == a[0];
      assert (a + s)[1..] == a[1..] + s;
      HashConcat(a[1..], s, Step1a(h, a[0]));
      FoldCons(a[0], a[1..], h);
      assert [a[0]] + a[1..] == a;
    }
  }

  /** Bytes after the first NUL do not affect the hash. */
  lemma HashIgnoresAfterNul(data: seq<bv8>, tail1: seq<bv8>, tail2: seq<bv8>, h: bv32)
    requires 0 !in data
    ensures 0 in data + [0] + tail1 && 0 in data + [0] + tail2
    ensures HashFnv1a(data + [0] + tail1, h) == HashFnv1a(data + [0] + tail2, h)
  {
    HashIsFold(data, tail1, h);
    HashIsFold(data, tail2, h);
  }

  /** The widening multiply and the wrapping multiply give the same round. */
  lemma StepsAgree(h: bv32, b: bv8)
    ensures Step1b(h, b) == Step1a(h, b)
  {
  }

  /** `hashFnv1b` equals `hashFnv1a` on every NUL-terminated input. */
  lemma {:induction false} Fnv1bEqualsFnv1a(s: seq<bv8>, h: bv32)
    requires 0 in s
    ensures HashFnv1b(s, h) == HashFnv1a(s, h)
    decreases |s|
  {
    if s[0] != 0 {
      assert s == [s[0]] + s[1..];
      StepsAgree(h, s[0]);
      Fnv1bEqualsFnv1a(s[1..], Step1b(h, s[0]));
    }
  }

  /** The empty literal hashes to the offset basis. */
  lemma EmptyLiteralIsBasis()
    ensures FnvLiteral([]) == 0x811C9DC5
  {
  }

  /** The literal of a NUL-free string is the fold of its bytes from the offset basis. */
  lemma LiteralIsFold(s: seq<bv8>)
    requires 0 !in s
    ensures FnvLiteral(s) == Fold(s, Fnv1aBasis)
  {
    HashIsFold(s, [], Fnv1aBasis);
    assert s + [0] + [] == s + [0];
  }

  /** An embedded NUL ends the literal's hash: `"a\0b"_fnv == "a"_fnv`. */
  lemma LiteralStopsAtNul(a: seq<bv8>, b: seq<bv8>)
    requires 0 !in a
    ensures FnvLiteral(a + [0] + b) == FnvLiteral(a)
  {
    LiteralIsFold(a);
    HashIsFold(a, b + [0], Fnv1aBasis);
    assert a + [0] + b + [0] == a + [0] + (b + [0]);
  }

  /** On bytes below 0x80 (no sign extension) the source's hash is the octet FNV-1a. */
  lemma {:induction false} AgreesWithOctetFnv1aBelow0x80(data: seq<bv8>, h: bv32)
    requires forall i :: 0 <= i < |data| ==> data[i] < 0x80
    ensures Fold(data, h) == OctetFold(data, h)
    decreases |data|
  {
    if data != [] {
      var prefix, b := data[..|data| - 1], data[|data| - 1];
      AgreesWithOctetFnv1aBelow0x80(prefix, h);
      StepAgreesBelow0x80(Fold(prefix, h), b);
    }
  }

  /** Below 0x80 the sign extension changes nothing. */
  lemma StepAgreesBelow0x80(h: bv32, b: bv8)
    requires b < 0x80
    ensures Step1a(h, b) == OctetStep(h, b)
  {
    assert XorOperand(b) == b as bv32;
  }

  /** The single byte 0x80 hashes differently from the octet FNV-1a, because of the sign extension. */
  lemma DiffersFromOctetFnv1a()
    ensures FnvLiteral([0x80]) == 0x04F3_B29F
    ensures OctetFold([0x80], Fnv1aBasis) == 0x850B_939F
  {
    assert XorOperand(0x80) == 0xFFFF_FF80;
    assert Step1a(0x811C9DC5, 0x80) == 0x04F3_B29F;
    assert [0x80][..0] == [];
    LiteralIsFold([0x80]);
    assert Fold([0x80], Fnv1aBasis) == Step1a(0x811C9DC5, 0x80);
    assert OctetStep(0x811C9DC5, 0x80) == 0x850B_939F;
    assert OctetFold([0x80], Fnv1aBasis) == OctetStep(0x811C9DC5, 0x80);
  }
}

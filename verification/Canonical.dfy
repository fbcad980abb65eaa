/** The length-prefixed encoding every content hash of a run is taken over. Hash functions stay
    uninterpreted; what is proved is that the bytes handed to them determine the fields. */
module Canonical {

  type Byte = b: int | 0 <= b < 256
  type Bytes = seq<Byte>

  const LENGTH_LIMIT: nat := 0x1_0000_0000

  // ----- Numbers and text as bytes -----

  function Pow256(width: nat): (r: nat)
    ensures r > 0
  {
    if width == 0 then 1 else 256 * Pow256(width - 1)
  }

  /** The lowest `width` bytes of n, most significant first. */
  function BigEndian(n: nat, width: nat): (r: Bytes)
    ensures |r| == width
  {
    if width == 0 then [] else BigEndian(n / 256, width - 1) + [n % 256]
  }

  function FromBigEndian(b: Bytes): nat {
    if b == [] then 0 else 256 * FromBigEndian(b[..|b| - 1]) + b[|b| - 1]
  }

  lemma {:induction false} BigEndianRoundTrip(n: nat, width: nat)
    ensures FromBigEndian(BigEndian(n, width)) == n % Pow256(width)
  {
    if width > 0 {
      BigEndianRoundTrip(n / 256, width - 1);
      assert BigEndian(n, width)[..width - 1] == BigEndian(n / 256, width - 1);
      DigitSplit(n, Pow256(width - 1));
    }
  }

  lemma DigitSplit(n: nat, p: nat)
    requires p > 0
    ensures n % (256 * p) == 256 * (n / 256 % p) + n % 256
  {
    var q, r := n / 256, n % 256;
    var a, b := q / p, q % p;
    calc {
      n;
      256 * q + r;
      256 * (a * p + b) + r;
      256 * p * a + (256 * b + r);
    }
    Remainder(n, 256 * p, a, 256 * b + r);
  }

  lemma {:induction false} TimesMore(m: nat, x: nat, y: nat)
    ensures y < x ==> m * y + m <= m * x
  {
    if y + 1 < x {
      TimesMore(m, x - 1, y);
      assert m * x == m * (x - 1) + m;
    } else if y + 1 == x {
      assert m * x == m * y + m;
    }
  }

  lemma Remainder(n: nat, m: nat, a: nat, r: nat)
    requires n == m * a + r && r < m
    ensures n % m == r
  {
    assert n == m * (n / m) + n % m;
    TimesMore(m, a, n / m);
    TimesMore(m, n / m, a);
    assert n / m == a;
  }

  lemma BigEndianInjective(m: nat, n: nat, width: nat)
    requires m < Pow256(width) && n < Pow256(width) && BigEndian(m, width) == BigEndian(n, width)
    ensures m == n
  {
    BigEndianRoundTrip(m, width);
    BigEndianRoundTrip(n, width);
  }

  predicate IsAscii(s: string) {
    forall i :: 0 <= i < |s| ==> s[i] as int < 128
  }

  /** The UTF-8 bytes of ASCII text; it is applied to no other. */
  function Ascii(s: string): (r: Bytes)
    ensures |r| == |s|
  {
    seq(|s|, i requires 0 <= i < |s| => s[i] as int % 256)
  }

  lemma AsciiInjective(s: string, t: string)
    requires IsAscii(s) && IsAscii(t) && Ascii(s) == Ascii(t)
    ensures s == t
  {
    forall i | 0 <= i < |s| ensures s[i] == t[i] {
      assert Ascii(s)[i] == s[i] as int && Ascii(t)[i] == t[i] as int;
    }
  }

  // ----- Fields -----

  datatype Field = Field(name: Bytes, value: Bytes)

  predicate Short(field: Field) {
    |field.name| < LENGTH_LIMIT && |field.value| < LENGTH_LIMIT
  }

  predicate AllShort(fields: seq<Field>) {
    forall i :: 0 <= i < |fields| ==> Short(fields[i])
  }

  /** A length is cast to 32 bits before it is written. */
  function LengthPrefix(n: nat): (r: Bytes)
    ensures |r| == 4
  {
    BigEndian(n % LENGTH_LIMIT, 4)
  }

  function EncodeField(field: Field): Bytes {
    LengthPrefix(|field.name|) + field.name + LengthPrefix(|field.value|) + field.value
  }

  function Encode(fields: seq<Field>): Bytes {
    if fields == [] then [] else EncodeField(fields[0]) + Encode(fields[1..])
  }

  lemma {:induction false} EncodeOfConcat(a: seq<Field>, b: seq<Field>)
    ensures Encode(a + b) == Encode(a) + Encode(b)
  {
    if a == [] {
      assert a + b == b;
    } else {
      assert (a + b)[1..] == a[1..] + b;
      EncodeOfConcat(a[1..], b);
    }
  }

  lemma EncodeOfAppend(fields: seq<Field>, field: Field)
    ensures Encode(fields + [field]) == Encode(fields) + EncodeField(field)
  {
    EncodeOfConcat(fields, [field]);
    assert Encode([field]) == EncodeField(field) + Encode([]);
  }

  lemma PrefixUnique(a: Bytes, b: Bytes, s: Bytes, t: Bytes)
    requires |a| < LENGTH_LIMIT && |b| < LENGTH_LIMIT
    requires LengthPrefix(|a|) + s == LengthPrefix(|b|) + t
    ensures |a| == |b| && s == t
  {
    var left, right := LengthPrefix(|a|) + s, LengthPrefix(|b|) + t;
    assert left[..4] == LengthPrefix(|a|) && right[..4] == LengthPrefix(|b|);
    assert left[4..] == s && right[4..] == t;
    FourBytes();
    BigEndianInjective(|a|, |b|, 4);
  }

  /** Two byte strings that start with the same length prefix and go on equally agree on the block
      the prefix announces and on the rest. */
  lemma BlockUnique(a: Bytes, b: Bytes, s: Bytes, t: Bytes)
    requires |a| < LENGTH_LIMIT && |b| < LENGTH_LIMIT
    requires LengthPrefix(|a|) + (a + s) == LengthPrefix(|b|) + (b + t)
    ensures a == b && s == t
  {
    PrefixUnique(a, b, a + s, b + t);
    assert (a + s)[..|a|] == a && (b + t)[..|a|] == b;
    assert (a + s)[|a|..] == s && (b + t)[|a|..] == t;
  }

  lemma FourBytes()
    ensures Pow256(4) == LENGTH_LIMIT
  {
    assert Pow256(1) == 256 && Pow256(2) == 0x1_0000 && Pow256(3) == 0x100_0000;
  }

  lemma EightBytes()
    ensures Pow256(8) == 0x1_0000_0000_0000_0000
  {
    FourBytes();
    assert Pow256(5) == 0x100_0000_0000 && Pow256(6) == 0x1_0000_0000_0000 && Pow256(7) == 0x100_0000_0000_0000;
  }

  lemma FieldBlocks(f: Field, s: Bytes)
    ensures EncodeField(f) + s == LengthPrefix(|f.name|) + (f.name + (LengthPrefix(|f.value|) + (f.value + s)))
  {
  }

  lemma FieldUnique(f: Field, g: Field, s: Bytes, t: Bytes)
    requires Short(f) && Short(g) && EncodeField(f) + s == EncodeField(g) + t
    ensures f == g && s == t
  {
    FieldBlocks(f, s);
    FieldBlocks(g, t);
    BlockUnique(f.name, g.name, LengthPrefix(|f.value|) + (f.value + s), LengthPrefix(|g.value|) + (g.value + t));
    BlockUnique(f.value, g.value, s, t);
  }

  /** Equal buffers come from equal field lists, as long as every name and value has fewer than 2^32
      bytes. */
  lemma {:induction false} EncodingInjective(a: seq<Field>, b: seq<Field>)
    requires AllShort(a) && AllShort(b) && Encode(a) == Encode(b)
    ensures a == b
  {
    if a != [] && b != [] {
      FieldUnique(a[0], b[0], Encode(a[1..]), Encode(b[1..]));
      EncodingInjective(a[1..], b[1..]);
    }
  }

  // ----- Why the bound is needed -----

  function Zeros(n: nat): (r: Bytes)
    ensures |r| == n
  {
    seq(n, i => 0)
  }

  function Blanks(n: nat): seq<Field> {
    seq(n, i => Field([], []))
  }

  lemma {:induction false} BlanksAreZeros(n: nat)
    ensures Encode(Blanks(n)) == Zeros(8 * n)
  {
    if n > 0 {
      assert Blanks(n)[1..] == Blanks(n - 1);
      BlanksAreZeros(n - 1);
      ZeroPrefix();
      assert EncodeField(Field([], [])) == Zeros(8);
      assert Zeros(8) + Zeros(8 * (n - 1)) == Zeros(8 * n);
    }
  }

  lemma ZeroPrefix()
    ensures LengthPrefix(0) == [0, 0, 0, 0] && LengthPrefix(LENGTH_LIMIT) == [0, 0, 0, 0]
  {
    assert BigEndian(0, 1) == [0];
    assert BigEndian(0, 2) == [0, 0];
    assert BigEndian(0, 3) == [0, 0, 0];
  }

  /** A value of exactly 2^32 zero bytes is indistinguishable from no value and 2^29 blank fields, so
      the bound cannot be raised by one. */
  lemma LongValuesCollide(name: Bytes)
    ensures Encode([Field(name, Zeros(LENGTH_LIMIT))]) == Encode([Field(name, [])] + Blanks(0x2000_0000))
    ensures [Field(name, Zeros(LENGTH_LIMIT))] != [Field(name, [])] + Blanks(0x2000_0000)
  {
    var long, short := Field(name, Zeros(LENGTH_LIMIT)), Field(name, []);
    ZeroPrefix();
    BlanksAreZeros(0x2000_0000);
    EncodeOfConcat([short], Blanks(0x2000_0000));
    assert Encode([long]) == EncodeField(long) + Encode([]);
    assert Encode([short]) == EncodeField(short) + Encode([]);
    assert LengthPrefix(|name|) + name + [0, 0, 0, 0] + Zeros(LENGTH_LIMIT)
        == EncodeField(short) + Zeros(8 * 0x2000_0000);
    assert [long][0] != ([short] + Blanks(0x2000_0000))[0];
  }

  predicate AllBelow(fields: seq<Field>, limit: nat) {
    forall i :: 0 <= i < |fields| ==> |fields[i].name| < limit && |fields[i].value| < limit
  }

  ghost predicate InjectiveBelow(limit: nat) {
    forall a: seq<Field>, b: seq<Field> :: AllBelow(a, limit) && AllBelow(b, limit) && Encode(a) == Encode(b) ==> a == b
  }

  /** Exactly which bound on names and values makes the encoding injective: one of at most 2^32 bytes. */
  lemma LimitExactly(limit: nat)
    ensures InjectiveBelow(limit) <==> limit <= LENGTH_LIMIT
  {
    if limit <= LENGTH_LIMIT {
      forall a: seq<Field>, b: seq<Field> | AllBelow(a, limit) && AllBelow(b, limit) && Encode(a) == Encode(b)
        ensures a == b
      {
        EncodingInjective(a, b);
      }
    } else {
      LongValuesCollide([]);
      var long, blanks := [Field([], Zeros(LENGTH_LIMIT))], [Field([], [])] + Blanks(0x2000_0000);
      assert AllBelow(long, limit) && AllBelow(blanks, limit);
    }
  }

  // ----- The buffers that are hashed -----

  const ENCODING_VERSION: string := "tule-canonical-v1"

  function VersionField(): Field {
    Field(Ascii("encoding"), Ascii(ENCODING_VERSION))
  }

  /** What `hash_canonical_fields` hashes. */
  function Versioned(fields: seq<Field>): Bytes {
    Encode([VersionField()] + fields)
  }

  lemma VersionedInjective(a: seq<Field>, b: seq<Field>)
    requires AllShort(a) && AllShort(b) && Versioned(a) == Versioned(b)
    ensures a == b
  {
    EncodingInjective([VersionField()] + a, [VersionField()] + b);
    assert ([VersionField()] + a)[1..] == a && ([VersionField()] + b)[1..] == b;
  }

  class Buffer {
    var bytes: Bytes

    constructor ()
      ensures bytes == []
    {
      bytes := [];
    }

    method AppendField(name: Bytes, value: Bytes)
      modifies this
      ensures bytes == old(bytes) + EncodeField(Field(name, value))
    {
      bytes := bytes + LengthPrefix(|name|);
      bytes := bytes + name;
      bytes := bytes + LengthPrefix(|value|);
      bytes := bytes + value;
    }
  }

  method HashCanonicalFields<Digest>(fields: seq<Field>, hash: Bytes -> Digest) returns (digest: Digest)
    ensures digest == hash(Versioned(fields))
  {
    var buffer := new Buffer();
    buffer.AppendField(Ascii("encoding"), Ascii(ENCODING_VERSION));
    EncodeOfAppend([], VersionField());
    assert [] + [VersionField()] == [VersionField()];
    for i := 0 to |fields|
      invariant buffer.bytes == Versioned(fields[..i])
    {
      buffer.AppendField(fields[i].name, fields[i].value);
      assert [VersionField()] + fields[..i + 1] == [VersionField()] + fields[..i] + [fields[i]];
      EncodeOfAppend([VersionField()] + fields[..i], fields[i]);
    }
    assert fields[..|fields|] == fields;
    digest := hash(buffer.bytes);
  }
}

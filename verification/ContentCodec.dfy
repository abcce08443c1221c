/**
 Big-endian integers and the bounds-checked read cursor.
 */
module Bytes {
  import opened Wrappers

  type byte = b: int | 0 <= b < 256

  function Power(base: nat, k: nat): nat {
    if k == 0 then 1 else base * Power(base, k - 1)
  }

  /** The low `k` bytes of `n`, most significant first. */
  function BigEndian(n: nat, k: nat): (bs: seq<byte>)
    ensures |bs| == k
    decreases n, k
  {
    if k == 0 then [] else BigEndian(n / 256, k - 1) + [n % 256]
  }

  function FromBigEndian(bs: seq<byte>): nat {
    if bs == [] then 0 else FromBigEndian(bs[..|bs| - 1]) * 256 + bs[|bs| - 1]
  }

  lemma {:induction false} BigEndianRoundTrip(n: nat, k: nat)
    requires n < Power(256, k)
    ensures FromBigEndian(BigEndian(n, k)) == n
    decreases k
  {
    if k > 0 {
      BigEndianRoundTrip(n / 256, k - 1);
      assert BigEndian(n, k)[..k - 1] == BigEndian(n / 256, k - 1);
    }
  }

  lemma ProductGrows(d: nat, a: nat, b: nat)
    requires a < b
    ensures d * a + d <= d * b
  {
    assert d * b == d * a + d * (b - a);
    assert d * (b - a) == d + d * (b - a - 1);
  }

  lemma QuotientUnique(n: nat, d: nat, q: nat, r: nat)
    requires d > 0 && r < d && n == d * q + r
    ensures n / d == q
  {
    var quotient := n / d;
    assert d * quotient <= n < d * quotient + d;
    if q < quotient {
      ProductGrows(d, q, quotient);
    } else if quotient < q {
      ProductGrows(d, quotient, q);
    }
  }

  lemma DivideTwice(n: nat, a: nat, b: nat)
    requires a > 0 && b > 0
    ensures a * b > 0 && n / a / b == n / (a * b)
  {
    var m, s := n / a, n % a;
    var q, r := m / b, m % b;
    assert n == a * m + s;
    assert m == b * q + r;
    Regroup(a, b, q, r, s);
    QuotientUnique(n, a * b, q, a * r + s);
  }

  lemma Regroup(a: nat, b: nat, q: nat, r: nat, s: nat)
    requires r < b && s < a
    ensures a * (b * q + r) + s == a * b * q + (a * r + s)
    ensures a * r + s < a * b
  {
    assert a * (b * q) == a * b * q;
    assert a * (b * q + r) == a * (b * q) + a * r;
    ProductGrows(a, r, b);
  }

  lemma {:induction false} PowerPositive(base: nat, k: nat)
    requires base > 0
    ensures Power(base, k) > 0
  {
    if k > 0 {
      PowerPositive(base, k - 1);
      assert base * Power(base, k - 1) >= Power(base, k - 1);
    }
  }

  /** Byte i counts for 256 to the number of bytes behind it. */
  lemma {:induction false} BigEndianAt(n: nat, k: nat, i: nat)
    requires i < k
    ensures Power(256, k - 1 - i) > 0 && BigEndian(n, k)[i] == n / Power(256, k - 1 - i) % 256
    decreases k
  {
    PowerPositive(256, k - 1 - i);
    if i == k - 1 {
      assert Power(256, 0) == 1;
    } else {
      PowerPositive(256, k - 2 - i);
      BigEndianAt(n / 256, k - 1, i);
      DivideTwice(n, 256, Power(256, k - 2 - i));
    }
  }

  lemma PowersOf256()
    ensures Power(256, 1) == 0x100 && Power(256, 2) == 0x1_0000 && Power(256, 4) == 0x1_0000_0000
    ensures Power(256, 8) == 0x1_0000_0000_0000_0000
  {
    assert Power(256, 0) == 1;
    assert Power(256, 3) == 256 * Power(256, 2);
    assert Power(256, 4) == 256 * Power(256, 3);
    assert Power(256, 5) == 256 * Power(256, 4);
    assert Power(256, 6) == 256 * Power(256, 5);
    assert Power(256, 7) == 256 * Power(256, 6);
    assert Power(256, 8) == 256 * Power(256, 7);
  }

  /** Reading a `k`-byte integer off the front. */
  function ReadUint(bs: seq<byte>, k: nat): Option<(nat, seq<byte>)> {
    if |bs| < k then None else Some((FromBigEndian(bs[..k]), bs[k..]))
  }

  lemma ReadUintBack(n: nat, k: nat, rest: seq<byte>)
    requires n < Power(256, k)
    ensures ReadUint(BigEndian(n, k) + rest, k) == Some((n, rest))
  {
    BigEndianRoundTrip(n, k);
    assert (BigEndian(n, k) + rest)[..k] == BigEndian(n, k);
    assert (BigEndian(n, k) + rest)[k..] == rest;
  }

  /** A byte array with a read position. */
  class Buffer {
    const data: seq<byte>
    var offset: nat

    ghost predicate Valid()
      reads this
    {
      offset <= |data|
    }

    /** What is left to read. */
    function Rest(): seq<byte>
      requires Valid()
      reads this
    {
      data[offset..]
    }

    constructor (data: seq<byte>)
      ensures Valid() && Rest() == data && this.data == data
    {
      this.data, offset := data, 0;
    }

    function Available(): nat
      requires Valid()
      reads this
    {
      |data| - offset
    }

    /** Reads a `k`-byte integer; with too little data nothing moves. */
    method Copy(k: nat) returns (value: Option<nat>)
      requires Valid()
      modifies this
      ensures Valid()
      ensures match ReadUint(old(Rest()), k)
              case None => value == None && Rest() == old(Rest())
              case Some((n, rest)) => value == Some(n) && Rest() == rest
    {
      if Available() < k {
        return None;
      }
      assert data[offset..][..k] == data[offset..offset + k];
      assert data[offset..][k..] == data[offset + k..];
      value := Some(FromBigEndian(data[offset..offset + k]));
      offset := offset + k;
    }

    /** Takes the next `size` bytes, or all there are. */
    method Consume(size: nat) returns (taken: seq<byte>)
      requires Valid()
      modifies this
      ensures Valid()
      ensures size <= |old(Rest())| ==> taken == old(Rest())[..size] && Rest() == old(Rest())[size..]
      ensures size > |old(Rest())| ==> taken == old(Rest()) && Rest() == []
    {
      var consumed := if size < Available() then size else Available();
      taken := data[offset..offset + consumed];
      assert data[offset..][..consumed] == taken;
      assert data[offset..][consumed..] == data[offset + consumed..];
      offset := offset + consumed;
    }
  }
}

/**
 Content headers: thirteen optional message properties behind a word of flags.
 Header tables and timestamps are opaque encoded values.
 */
module ContentCodec {
  import opened Bytes
  import opened Wrappers

  datatype PropertyType = SHORT_STRING | FIELD_TABLE | SHORT_SHORT_UINT | TIMESTAMP

  const EXPECTED_TYPES: seq<PropertyType> := [
    SHORT_STRING, SHORT_STRING, FIELD_TABLE, SHORT_SHORT_UINT, SHORT_SHORT_UINT, SHORT_STRING, SHORT_STRING,
    SHORT_STRING, SHORT_STRING, TIMESTAMP, SHORT_STRING, SHORT_STRING, SHORT_STRING]

  /** A property value; the contents of a table are its encoded entries. */
  datatype Value = Text(text: seq<byte>) | Table(entries: seq<byte>) | Octet(octet: byte) | Time(seconds: nat)

  type Property = Option<Value>

  predicate OfType(v: Value, t: PropertyType) {
    match t
    case SHORT_STRING => v.Text?
    case FIELD_TABLE => v.Table? && |v.entries| < 0x1_0000_0000
    case SHORT_SHORT_UINT => v.Octet?
    case TIMESTAMP => v.Time? && v.seconds < 0x1_0000_0000_0000_0000
  }

  predicate WellTyped(ps: seq<Property>, types: seq<PropertyType>) {
    |ps| == |types| && forall i | 0 <= i < |ps| && ps[i].Some? :: OfType(ps[i].value, types[i])
  }

  /** The thirteen properties in the order of their ids. */
  type Properties = ps: seq<Property> | WellTyped(ps, EXPECTED_TYPES) witness NO_PROPERTIES

  const NO_PROPERTIES: seq<Property> :=
    [None, None, None, None, None, None, None, None, None, None, None, None, None]

  // ---- The flag word ----

  /** A number from its bits, most significant first. */
  function FromBits(bits: seq<bool>): nat {
    if bits == [] then 0 else FromBits(bits[..|bits| - 1]) * 2 + if bits[|bits| - 1] then 1 else 0
  }

  /** The low `k` bits of a number, most significant first. */
  function Bits(n: nat, k: nat): (bits: seq<bool>)
    ensures |bits| == k
    decreases n, k
  {
    if k == 0 then [] else Bits(n / 2, k - 1) + [n % 2 == 1]
  }

  lemma {:induction false} BitsRoundTrip(bits: seq<bool>)
    ensures Bits(FromBits(bits), |bits|) == bits
    ensures FromBits(bits) < Power(2, |bits|)
  {
    if bits != [] {
      BitsRoundTrip(bits[..|bits| - 1]);
    }
  }

  function Presence(ps: seq<Property>): (bits: seq<bool>)
    ensures |bits| == |ps|
  {
    seq(|ps|, i requires 0 <= i < |ps| => ps[i].Some?)
  }

  /** The three low bits are never set; the bit of property i is bit 15 - i. */
  function PropertyFlags(p: Properties): nat {
    FromBits(Presence(p) + [false, false, false])
  }

  lemma FlagsBack(p: Properties)
    ensures Bits(PropertyFlags(p), 16) == Presence(p) + [false, false, false]
    ensures PropertyFlags(p) < 0x1_0000
  {
    BitsRoundTrip(Presence(p) + [false, false, false]);
    assert Power(2, 4) == 16 && Power(2, 8) == 256 && Power(2, 12) == 4096 && Power(2, 16) == 65536;
  }

  lemma {:induction false} BitAt(n: nat, k: nat, i: nat)
    requires i < k
    ensures Power(2, k - 1 - i) > 0 && (Bits(n, k)[i] <==> n / Power(2, k - 1 - i) % 2 == 1)
    decreases k
  {
    PowerPositive(2, k - 1 - i);
    if i == k - 1 {
      assert Power(2, 0) == 1;
    } else {
      PowerPositive(2, k - 2 - i);
      BitAt(n / 2, k - 1, i);
      DivideTwice(n, 2, Power(2, k - 2 - i));
    }
  }

  /** The flag of property i counts for 2 to the power 15 - i. */
  lemma FlagExactly(p: Properties, i: nat)
    requires i < |p|
    ensures Power(2, 15 - i) > 0 && (PropertyFlags(p) / Power(2, 15 - i) % 2 == 1 <==> p[i].Some?)
  {
    FlagsBack(p);
    BitAt(PropertyFlags(p), 16, i);
    assert Presence(p)[i] == p[i].Some?;
  }

  // ---- Encoding ----

  function Truncate(s: seq<byte>): seq<byte> {
    if |s| > 255 then s[..255] else s
  }

  function EncodeValue(v: Value): seq<byte> {
    match v
    case Text(s) => [|Truncate(s)|] + Truncate(s)
    case Table(entries) => BigEndian(|entries|, 4) + entries
    case Octet(b) => [b]
    case Time(seconds) => BigEndian(seconds, 8)
  }

  function EncodeFields(ps: seq<Property>): seq<byte> {
    if ps == [] then []
    else (if ps[0].Some? then EncodeValue(ps[0].value) else []) + EncodeFields(ps[1..])
  }

  function Encode(p: Properties): seq<byte> {
    BigEndian(PropertyFlags(p), 2) + EncodeFields(p)
  }

  /** The size the library announces for a value; a long string is counted in full. */
  function ValueSize(v: Value): nat {
    match v
    case Text(s) => 1 + |s|
    case Table(entries) => 4 + |entries|
    case Octet(_) => 1
    case Time(_) => 8
  }

  function FieldsSize(ps: seq<Property>): nat {
    if ps == [] then 0 else (if ps[0].Some? then ValueSize(ps[0].value) else 0) + FieldsSize(ps[1..])
  }

  function EncodedSize(p: Properties): nat {
    2 + FieldsSize(p)
  }

  // ---- Decoding ----

  function ReadBlock(bs: seq<byte>, lengthBytes: nat): Option<(seq<byte>, seq<byte>)> {
    match ReadUint(bs, lengthBytes)
    case None => None
    case Some((n, rest)) => if n > |rest| then None else Some((rest[..n], rest[n..]))
  }

  function DecodeValue(t: PropertyType, bs: seq<byte>): Option<(Value, seq<byte>)> {
    match t
    case SHORT_STRING => (match ReadBlock(bs, 1) case None => None case Some((s, rest)) => Some((Text(s), rest)))
    case FIELD_TABLE => (match ReadBlock(bs, 4) case None => None case Some((s, rest)) => Some((Table(s), rest)))
    case SHORT_SHORT_UINT => if bs == [] then None else Some((Octet(bs[0]), bs[1..]))
    case TIMESTAMP => (match ReadUint(bs, 8) case None => None case Some((n, rest)) => Some((Time(n), rest)))
  }

  function Prepend(head: Property, tail: Option<seq<Property>>): Option<seq<Property>> {
    if tail.None? then None else Some([head] + tail.value)
  }

  /** The flagged fields in order; any one that cannot be read fails them all. */
  function DecodeFields(types: seq<PropertyType>, bits: seq<bool>, bs: seq<byte>): Option<seq<Property>>
    requires |types| <= |bits|
  {
    if types == [] then Some([])
    else if !bits[0] then Prepend(None, DecodeFields(types[1..], bits[1..], bs))
    else
      match DecodeValue(types[0], bs)
      case None => None
      case Some((v, rest)) => Prepend(Some(v), DecodeFields(types[1..], bits[1..], rest))
  }

  /** Bytes after the last flagged property are ignored. */
  function Decode(bs: seq<byte>): Option<seq<Property>> {
    match ReadUint(bs, 2)
    case None => None
    case Some((flags, rest)) => DecodeFields(EXPECTED_TYPES, Bits(flags, 16), rest)
  }

  // ---- Round trip and size ----

  predicate Fits(property: Property) {
    property.Some? && property.value.Text? ==> |property.value.text| <= 255
  }

  /** Every string fits a short string. */
  predicate StringsFit(ps: seq<Property>) {
    forall i | 0 <= i < |ps| :: Fits(ps[i])
  }

  function TruncateValue(v: Value): Value {
    if v.Text? then Text(Truncate(v.text)) else v
  }

  function Truncated(ps: seq<Property>): (r: seq<Property>)
    ensures |r| == |ps|
  {
    seq(|ps|, i requires 0 <= i < |ps| => if ps[i].Some? then Some(TruncateValue(ps[i].value)) else None)
  }

  lemma ReadBlockBack(s: seq<byte>, k: nat, rest: seq<byte>)
    requires |s| < Power(256, k)
    ensures ReadBlock(BigEndian(|s|, k) + s + rest, k) == Some((s, rest))
  {
    assert BigEndian(|s|, k) + s + rest == BigEndian(|s|, k) + (s + rest);
    ReadUintBack(|s|, k, s + rest);
    assert (s + rest)[..|s|] == s && (s + rest)[|s|..] == rest;
  }

  lemma DecodeValueBack(t: PropertyType, v: Value, rest: seq<byte>)
    requires OfType(v, t)
    ensures DecodeValue(t, EncodeValue(v) + rest) == Some((TruncateValue(v), rest))
  {
    PowersOf256();
    match t
    case SHORT_STRING =>
      var s := Truncate(v.text);
      assert BigEndian(|s|, 1) == [|s|] by {
        assert BigEndian(|s| / 256, 0) == [];
      }
      ReadBlockBack(s, 1, rest);
    case FIELD_TABLE => ReadBlockBack(v.entries, 4, rest);
    case SHORT_SHORT_UINT =>
    case TIMESTAMP => ReadUintBack(v.seconds, 8, rest);
  }

  lemma PresenceAndTruncatedStep(ps: seq<Property>, unused: seq<bool>)
    requires ps != []
    ensures (Presence(ps) + unused)[1..] == Presence(ps[1..]) + unused
    ensures Truncated(ps) == [Truncated(ps)[0]] + Truncated(ps[1..])
  {
  }

  /** The bytes of the first field in front of those of the others. */
  lemma EncodeFieldsStep(ps: seq<Property>, rest: seq<byte>)
    requires ps != []
    ensures EncodeFields(ps) + rest
         == (if ps[0].Some? then EncodeValue(ps[0].value) else []) + (EncodeFields(ps[1..]) + rest)
  {
  }

  /** Holds for any list of typed optional fields, with unused bits behind. */
  lemma {:induction false} DecodeFieldsBack(
    ps: seq<Property>, types: seq<PropertyType>, unused: seq<bool>, rest: seq<byte>)
    requires WellTyped(ps, types)
    ensures DecodeFields(types, Presence(ps) + unused, EncodeFields(ps) + rest) == Some(Truncated(ps))
  {
    if ps != [] {
      var tail := EncodeFields(ps[1..]) + rest;
      DecodeFieldsBack(ps[1..], types[1..], unused, rest);
      PresenceAndTruncatedStep(ps, unused);
      EncodeFieldsStep(ps, rest);
      if ps[0].Some? {
        DecodeValueBack(types[0], ps[0].value, tail);
      } else {
        assert [] + tail == tail;
      }
    }
  }

  lemma TruncatedIffLong(ps: seq<Property>)
    ensures Truncated(ps) == ps <==> StringsFit(ps)
  {
    forall i | 0 <= i < |ps|
      ensures Truncated(ps)[i] == ps[i] <==> Fits(ps[i])
    {
      if !Fits(ps[i]) {
        assert |Truncated(ps)[i].value.text| == 255;
      }
    }
  }

  /** Decoding undoes encoding up to the truncation of long strings, whatever
      follows; so it gives back the properties exactly when every string fits. */
  lemma PropertiesRoundTrip(p: Properties, rest: seq<byte>)
    ensures Decode(Encode(p) + rest) == Some(Truncated(p))
    ensures Decode(Encode(p) + rest) == Some(p) <==> StringsFit(p)
  {
    var flags, tail := PropertyFlags(p), EncodeFields(p) + rest;
    assert Encode(p) + rest == BigEndian(flags, 2) + tail;
    PowersOf256();
    FlagsBack(p);
    ReadUintBack(flags, 2, tail);
    DecodeFieldsBack(p, EXPECTED_TYPES, [false, false, false], rest);
    TruncatedIffLong(p);
  }

  lemma {:induction false} FieldsSizeBound(ps: seq<Property>)
    ensures |EncodeFields(ps)| <= FieldsSize(ps)
    ensures |EncodeFields(ps)| == FieldsSize(ps) <==> StringsFit(ps)
  {
    if ps != [] {
      FieldsSizeBound(ps[1..]);
      var mine := if ps[0].Some? then EncodeValue(ps[0].value) else [];
      var size := if ps[0].Some? then ValueSize(ps[0].value) else 0;
      assert |mine| <= size && (|mine| == size <==> Fits(ps[0]));
      assert ps == [ps[0]] + ps[1..];
      assert StringsFit(ps) <==> Fits(ps[0]) && StringsFit(ps[1..]);
    }
  }

  /** The announced size is the number of bytes written exactly when every string
      fits, and too large otherwise. */
  lemma EncodedSizeExact(p: Properties)
    ensures |Encode(p)| <= EncodedSize(p)
    ensures |Encode(p)| == EncodedSize(p) <==> StringsFit(p)
  {
    FieldsSizeBound(p);
  }

  // ---- Decoding with the cursor ----

  method DecodeBlock(buffer: Buffer, lengthBytes: nat) returns (block: Option<seq<byte>>)
    requires buffer.Valid()
    modifies buffer
    ensures buffer.Valid()
    ensures match ReadBlock(old(buffer.Rest()), lengthBytes)
            case None => block == None
            case Some((s, rest)) => block == Some(s) && buffer.Rest() == rest
  {
    var length := buffer.Copy(lengthBytes);
    if length.None? || length.value > buffer.Available() {
      return None;
    }
    var s := buffer.Consume(length.value);
    block := Some(s);
  }

  method DecodeField(buffer: Buffer, t: PropertyType) returns (value: Option<Value>)
    requires buffer.Valid()
    modifies buffer
    ensures buffer.Valid()
    ensures match DecodeValue(t, old(buffer.Rest()))
            case None => value == None
            case Some((v, rest)) => value == Some(v) && buffer.Rest() == rest
  {
    PowersOf256();
    match t
    case SHORT_STRING =>
      var s := DecodeBlock(buffer, 1);
      value := if s.Some? then Some(Text(s.value)) else None;
    case FIELD_TABLE =>
      var s := DecodeBlock(buffer, 4);
      value := if s.Some? then Some(Table(s.value)) else None;
    case SHORT_SHORT_UINT =>
      var s := buffer.Copy(1);
      OneByte(old(buffer.Rest()));
      value := if s.Some? then Some(Octet(s.value)) else None;
    case TIMESTAMP =>
      var s := buffer.Copy(8);
      value := if s.Some? then Some(Time(s.value)) else None;
  }

  lemma OneByte(bs: seq<byte>)
    ensures bs != [] ==> FromBigEndian(bs[..1]) == bs[0]
  {
    if bs != [] {
      assert bs[..1][..0] == [];
      assert FromBigEndian(bs[..1][..0]) == 0;
    }
  }

  /** Reading goes on after a field that fails, and then fails as a whole. */
  method DecodeFlagged(buffer: Buffer, types: seq<PropertyType>, bits: seq<bool>)
    returns (properties: Option<seq<Property>>)
    requires buffer.Valid() && |types| <= |bits|
    modifies buffer
    ensures properties == DecodeFields(types, bits, old(buffer.Rest()))
  {
    ghost var whole := DecodeFields(types, bits, buffer.Rest());
    var success, i := true, 0;
    var fields: seq<Property> := [];
    assert types[0..] == types && bits[0..] == bits;
    assert whole.Some? ==> fields + whole.value == whole.value;
    while i < |types|
      invariant 0 <= i <= |types| && buffer.Valid()
      invariant success ==> whole == Resumed(fields, DecodeFields(types[i..], bits[i..], buffer.Rest()))
      invariant !success ==> whole == None
    {
      assert types[i..][1..] == types[i + 1..] && bits[i..][1..] == bits[i + 1..];
      var value: Property := None;
      if bits[i] {
        value := DecodeField(buffer, types[i]);
        if value.None? {
          success := false;
        }
      }
      ResumedStep(fields, value, DecodeFields(types[i + 1..], bits[i + 1..], buffer.Rest()));
      fields := fields + [value];
      i := i + 1;
    }
    properties := if success then Some(fields) else None;
    assert fields + [] == fields;
  }

  method DecodeProperties(data: seq<byte>) returns (properties: Option<seq<Property>>)
    ensures properties == Decode(data)
  {
    var buffer := new Buffer(data);
    var flags := buffer.Copy(2);
    if flags.None? {
      return None;
    }
    properties := DecodeFlagged(buffer, EXPECTED_TYPES, Bits(flags.value, 16));
  }

  lemma ResumedStep(done: seq<Property>, value: Property, rest: Option<seq<Property>>)
    ensures Resumed(done, Prepend(value, rest)) == Resumed(done + [value], rest)
  {
    if rest.Some? {
      assert done + ([value] + rest.value) == done + [value] + rest.value;
    }
  }

  ghost function Resumed(done: seq<Property>, rest: Option<seq<Property>>): Option<seq<Property>> {
    if rest.None? then None else Some(done + rest.value)
  }

  // ---- Content headers ----

  datatype ContentHeader = ContentHeader(classId: nat, bodySize: nat, properties: seq<Property>)

  predicate ValidHeader(h: ContentHeader) {
    h.classId < 0x1_0000 && h.bodySize < 0x1_0000_0000_0000_0000 && WellTyped(h.properties, EXPECTED_TYPES)
  }

  function EncodeHeader(h: ContentHeader): seq<byte>
    requires ValidHeader(h)
  {
    BigEndian(h.classId, 2) + BigEndian(0, 2) + BigEndian(h.bodySize, 8) + Encode(h.properties)
  }

  function HeaderSize(h: ContentHeader): nat
    requires ValidHeader(h)
  {
    12 + EncodedSize(h.properties)
  }

  /** A weight other than 0 is only logged. */
  function DecodeHeader(bs: seq<byte>): Option<ContentHeader> {
    if |bs| < 12 then None
    else
      match Decode(bs[12..])
      case None => None
      case Some(p) => Some(ContentHeader(FromBigEndian(bs[..2]), FromBigEndian(bs[4..12]), p))
  }

  lemma HeaderRoundTrip(h: ContentHeader)
    requires ValidHeader(h)
    ensures DecodeHeader(EncodeHeader(h)) == Some(h.(properties := Truncated(h.properties)))
    ensures DecodeHeader(EncodeHeader(h)) == Some(h) <==> StringsFit(h.properties)
  {
    var bs := EncodeHeader(h);
    PowersOf256();
    assert bs[..2] == BigEndian(h.classId, 2);
    assert bs[4..12] == BigEndian(h.bodySize, 8);
    assert bs[12..] == Encode(h.properties) + [];
    BigEndianRoundTrip(h.classId, 2);
    BigEndianRoundTrip(h.bodySize, 8);
    PropertiesRoundTrip(h.properties, []);
    TruncatedIffLong(h.properties);
  }

  lemma HeaderSizeExact(h: ContentHeader)
    requires ValidHeader(h)
    ensures |EncodeHeader(h)| <= HeaderSize(h)
    ensures |EncodeHeader(h)| == HeaderSize(h) <==> StringsFit(h.properties)
  {
    EncodedSizeExact(h.properties);
  }

  /** The fixed part of a content header in bytes: the class, a weight of zero, and the
      size of the body. */
  lemma HeaderBytes(h: ContentHeader, i: nat)
    requires ValidHeader(h) && i < 8
    ensures |EncodeHeader(h)| >= 14
    ensures EncodeHeader(h)[..4] == [h.classId / 256 % 256, h.classId % 256, 0, 0]
    ensures Power(256, 7 - i) > 0 && EncodeHeader(h)[4 + i] == h.bodySize / Power(256, 7 - i) % 256
  {
    TwoBytesOf(h.classId);
    TwoBytesOf(0);
    BigEndianAt(h.bodySize, 8, i);
    var rest := BigEndian(h.bodySize, 8) + Encode(h.properties);
    assert EncodeHeader(h) == BigEndian(h.classId, 2) + BigEndian(0, 2) + rest;
  }

  lemma TwoBytesOf(n: nat)
    ensures BigEndian(n, 2) == [n / 256 % 256, n % 256]
  {
    assert BigEndian(n / 256 / 256, 0) == [];
    assert BigEndian(n / 256, 1) == [n / 256 % 256];
  }

  /** Properties that set only the content type, the delivery mode and the timestamp. */
  function Sample(contentType: seq<byte>, deliveryMode: byte, seconds: nat): Properties
    requires seconds < 0x1_0000_0000_0000_0000
  {
    [Some(Text(contentType)), None, None, Some(Octet(deliveryMode)), None, None, None, None, None,
     Some(Time(seconds)), None, None, None]
  }

  lemma FlagBits(a: seq<bool>, b: bool)
    ensures FromBits(a + [b]) == FromBits(a) * 2 + if b then 1 else 0
  {
    assert (a + [b])[..|a|] == a;
  }

  /** Bits behind the highest ones only shift them. */
  lemma {:induction false} ShiftedFlags(a: seq<bool>, k: nat)
    ensures FromBits(a + seq(k, _ => false)) == FromBits(a) * Power(2, k)
  {
    if k == 0 {
      assert a + seq(k, _ => false) == a;
    } else {
      ShiftedFlags(a, k - 1);
      assert a + seq(k, _ => false) == a + seq(k - 1, _ => false) + [false];
      FlagBits(a + seq(k - 1, _ => false), false);
    }
  }

  lemma {:induction false} NoFields(ps: seq<Property>)
    requires forall i | 0 <= i < |ps| :: ps[i].None?
    ensures EncodeFields(ps) == []
  {
    if ps != [] {
      NoFields(ps[1..]);
    }
  }

  lemma {:induction false} FieldsAppend(a: seq<Property>, b: seq<Property>)
    ensures EncodeFields(a + b) == EncodeFields(a) + EncodeFields(b)
  {
    if a == [] {
      assert a + b == b;
    } else {
      assert (a + b)[1..] == a[1..] + b;
      FieldsAppend(a[1..], b);
    }
  }

  lemma OneField(ps: seq<Property>, n: nat)
    requires n < |ps| && ps[n].Some? && forall i | 0 <= i < |ps| && i != n :: ps[i].None?
    ensures EncodeFields(ps) == EncodeValue(ps[n].value)
  {
    assert ps == ps[..n] + ps[n..];
    FieldsAppend(ps[..n], ps[n..]);
    NoFields(ps[..n]);
    NoFields(ps[n..][1..]);
  }

  lemma SampleFields(p: seq<Property>, contentType: seq<byte>, deliveryMode: byte, seconds: nat)
    requires |p| == 13 && |contentType| <= 255
    requires p[0] == Some(Text(contentType)) && p[3] == Some(Octet(deliveryMode)) && p[9] == Some(Time(seconds))
    requires forall i | 0 <= i < 13 && i != 0 && i != 3 && i != 9 :: p[i].None?
    ensures EncodeFields(p) == [|contentType|] + contentType + [deliveryMode] + BigEndian(seconds, 8)
  {
    var first, second, third := p[..3], p[3..9], p[9..];
    assert p == first + second + third;
    FieldsAppend(first + second, third);
    FieldsAppend(first, second);
    OneField(first, 0);
    OneField(second, 0);
    OneField(third, 0);
  }

  /** Those in bytes: the flags 0x9040, a string behind its length, one byte, and eight
      bytes of seconds. */
  lemma SampleBytes(contentType: seq<byte>, deliveryMode: byte, seconds: nat)
    requires |contentType| <= 255 && seconds < 0x1_0000_0000_0000_0000
    ensures Encode(Sample(contentType, deliveryMode, seconds))
         == [0x90, 0x40] + ([|contentType|] + contentType + [deliveryMode] + BigEndian(seconds, 8))
  {
    var p := Sample(contentType, deliveryMode, seconds);
    assert PropertyFlags(p) == 0x9040 by { SampleFlags(p); }
    TwoBytesOf(0x9040);
    SampleFields(p, contentType, deliveryMode, seconds);
  }

  lemma SampleFlags(p: Properties)
    requires p[0].Some? && p[3].Some? && p[9].Some?
    requires forall i | 0 <= i < 13 && i != 0 && i != 3 && i != 9 :: p[i].None?
    ensures PropertyFlags(p) == 0x9040
  {
    var high := [true, false, false, true];
    var low := high + seq(5, _ => false) + [true];
    assert Presence(p) + [false, false, false] == low + seq(6, _ => false);
    ShiftedFlags(low, 6);
    FlagBits(high + seq(5, _ => false), true);
    ShiftedFlags(high, 5);
    assert Power(2, 5) == 32 && Power(2, 6) == 64;
    FlagBits([], true);
    FlagBits([] + [true], false);
    FlagBits([] + [true] + [false], false);
    FlagBits([] + [true] + [false] + [false], true);
    assert high == [] + [true] + [false] + [false] + [true];
  }
}

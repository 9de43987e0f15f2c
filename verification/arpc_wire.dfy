/** The wire format of src/arpc/arpc_header.pb.cc on byte sequences: base 128 varints, fixed32 and
    length-delimited fields of the Protocol Buffers encoding, and the printer and parser of arpc_header. */
module ArpcWire {
  import opened Options

  type byte = x: int | 0 <= x < 256
  type uint32 = x: int | 0 <= x < 0x1_0000_0000
  type int32 = x: int | -0x8000_0000 <= x < 0x8000_0000
  type uint64 = x: int | 0 <= x < 0x1_0000_0000_0000_0000

  /** The enum fields hold any int. */
  datatype Header = Header(typ: int32, id: uint32, service: seq<byte>, meth: seq<byte>, argsSize: uint32, error: int32)

  const NO_HEADER := Header(0, 0, [], [], 0, 0)
  const REQUEST: int32 := 0
  const RESPONSE: int32 := 1

  /** Lengths that a string field may have when it is read: at most INT_MAX less the slop bytes. */
  const MAX_FIELD: nat := 0x7FFF_FFFF - 16

  const MAX_VARINT: nat := 10
  const MAX_VARINT32: nat := 5

  // ---------------------------------------------------------------- varints

  function Varint(n: nat): (s: seq<byte>)
    ensures 0 < |s|
  {
    if n < 0x80 then [n] else [n % 0x80 + 0x80] + Varint(n / 0x80)
  }

  datatype Number = Number(n: nat, rest: seq<byte>)

  /** A varint of at most max bytes; none if the bytes end or go on too long. */
  function ReadVarint(s: seq<byte>, max: nat): Option<Number>
    decreases max
  {
    if s == [] || max == 0 then None
    else if s[0] < 0x80 then Some(Number(s[0], s[1..]))
    else
      match ReadVarint(s[1..], max - 1)
      case None => None
      case Some(m) => Some(Number(s[0] - 0x80 + 0x80 * m.n, m.rest))
  }

  /** 128 to the power k. */
  function Pow128(k: nat): nat {
    if k == 0 then 1 else 0x80 * Pow128(k - 1)
  }

  lemma {:induction false} VarintRoundTrip(n: nat, max: nat, rest: seq<byte>)
    requires 0 < max && n < Pow128(max)
    ensures ReadVarint(Varint(n) + rest, max) == Some(Number(n, rest))
    decreases max
  {
    var s := Varint(n) + rest;
    if n < 0x80 {
      assert s[1..] == rest;
    } else {
      assert n / 0x80 < Pow128(max - 1);
      VarintRoundTrip(n / 0x80, max - 1, rest);
      assert s[1..] == Varint(n / 0x80) + rest;
      assert n == n % 0x80 + 0x80 * (n / 0x80);
    }
  }

  lemma PowersEnough()
    ensures 0x1_0000_0000_0000_0000 <= Pow128(MAX_VARINT) && 0x1_0000_0000 <= Pow128(MAX_VARINT32)
  {
    assert Pow128(3) == 0x20_0000;
    assert Pow128(5) == 0x80 * (0x80 * Pow128(3));
    assert Pow128(8) == 0x80 * (0x80 * (0x80 * Pow128(5)));
    assert Pow128(10) == 0x80 * (0x80 * Pow128(8));
  }

  lemma Varint64Back(n: uint64, rest: seq<byte>)
    ensures ReadVarint(Varint(n) + rest, MAX_VARINT) == Some(Number(n, rest))
  {
    PowersEnough();
    VarintRoundTrip(n, MAX_VARINT, rest);
  }

  lemma Varint32Back(n: uint32, rest: seq<byte>)
    ensures ReadVarint(Varint(n) + rest, MAX_VARINT32) == Some(Number(n, rest))
  {
    PowersEnough();
    VarintRoundTrip(n, MAX_VARINT32, rest);
  }

  lemma DivideAgain(n: nat, p: nat)
    requires 0 < p
    ensures n / 0x80 / p == n / (0x80 * p)
  {
    var q, r := n / 0x80 / p, n / 0x80 % p;
    assert n == 0x80 * (q * p + r) + n % 0x80;
    assert n == q * (0x80 * p) + (0x80 * r + n % 0x80);
    Quotient(n, 0x80 * p, q, 0x80 * r + n % 0x80);
  }

  lemma Quotient(n: nat, d: nat, q: nat, r: nat)
    requires r < d && n == q * d + r
    ensures n / d == q
  {
    var e := n / d;
    assert n == e * d + n % d;
    if e < q {
      Times(e + 1, q, d);
    } else if q < e {
      Times(q + 1, e, d);
    }
  }

  lemma Times(a: nat, b: nat, d: nat)
    requires a <= b
    ensures a * d <= b * d
  {
  }

  /** A varint has the digits of n to the base of 128, the lowest first; all bytes but the last have their high
      bit set. */
  lemma {:induction false} VarintDigits(n: nat, i: nat)
    requires i < |Varint(n)|
    ensures 0 < Pow128(i) && Varint(n)[i] as int % 0x80 == n / Pow128(i) % 0x80
    ensures i < |Varint(n)| - 1 <==> 0x80 <= Varint(n)[i]
    decreases i
  {
    if i > 0 {
      VarintDigits(n / 0x80, i - 1);
      DivideAgain(n, Pow128(i - 1));
    }
  }

  // ---------------------------------------------------------------- words

  /** Four bytes, the lowest first. */
  function Word(n: uint32): (s: seq<byte>)
    ensures |s| == 4
  {
    var a := n / 0x100;
    var b := a / 0x100;
    [n % 0x100, a % 0x100, b % 0x100, b / 0x100]
  }

  function FromWord(s: seq<byte>): uint32
    requires 4 <= |s|
  {
    var a: int, b: int, c: int, d: int := s[0], s[1], s[2], s[3];
    a + 0x100 * (b + 0x100 * (c + 0x100 * d))
  }

  lemma WordRoundTrip(n: uint32, rest: seq<byte>)
    ensures FromWord(Word(n) + rest) == n
  {
  }

  lemma WordBytes(n: uint32)
    ensures var s := Word(n);
      s[0] as int + 0x100 * s[1] as int + 0x1_0000 * s[2] as int + 0x100_0000 * s[3] as int == n
  {
    assert n == n % 0x100 + 0x100 * (n / 0x100 % 0x100) + 0x1_0000 * (n / 0x100 / 0x100);
  }

  /** An enum is written as a 64-bit varint, sign extended. */
  function Extended(x: int32): uint64 {
    if x < 0 then x + 0x1_0000_0000_0000_0000 else x
  }

  function Low32(n: int): uint32 {
    n % 0x1_0000_0000
  }

  function Signed(n: uint32): int32 {
    if n < 0x8000_0000 then n else n - 0x1_0000_0000
  }

  lemma EnumRoundTrip(x: int32)
    ensures Signed(Low32(Extended(x))) == x
  {
    assert 0x1_0000_0000_0000_0000 % 0x1_0000_0000 == 0;
  }

  // ---------------------------------------------------------------- printer

  const TYPE_TAG: byte := 8
  const ID_TAG: byte := 21
  const SERVICE_TAG: byte := 26
  const METHOD_TAG: byte := 34
  const ARGS_SIZE_TAG: byte := 40
  const ERROR_TAG: byte := 48

  function EnumField(tag: byte, x: int32): seq<byte> {
    if x == 0 then [] else [tag] + Varint(Extended(x))
  }

  function FixedField(tag: byte, n: uint32): seq<byte> {
    if n == 0 then [] else [tag] + Word(n)
  }

  function UintField(tag: byte, n: uint32): seq<byte> {
    if n == 0 then [] else [tag] + Varint(n)
  }

  function BytesField(tag: byte, b: seq<byte>): seq<byte> {
    if b == [] then [] else [tag] + Varint(|b|) + b
  }

  /** _InternalSerialize: the fields that are not zero, in the order of their numbers. */
  function Printed(h: Header): seq<byte> {
    EnumField(TYPE_TAG, h.typ) + (FixedField(ID_TAG, h.id) + (BytesField(SERVICE_TAG, h.service)
    + (BytesField(METHOD_TAG, h.meth) + (UintField(ARGS_SIZE_TAG, h.argsSize) + EnumField(ERROR_TAG, h.error)))))
  }

  /** A field in the Protocol Buffers encoding: its number and wire type in one byte, then its value. */
  function Tagged(number: nat, wireType: nat, value: seq<byte>): seq<byte>
    requires 8 * number + wireType < 0x80
  {
    [8 * number + wireType] + value
  }

  /** The fields that are there: varints are of wire type 0, strings of wire type 2 and words of wire type 5. */
  lemma PrintedFields(h: Header)
    ensures Printed(h) ==
      (if h.typ == 0 then [] else Tagged(1, 0, Varint(Extended(h.typ))))
      + (if h.id == 0 then [] else Tagged(2, 5, Word(h.id)))
      + (if h.service == [] then [] else Tagged(3, 2, Varint(|h.service|) + h.service))
      + (if h.meth == [] then [] else Tagged(4, 2, Varint(|h.meth|) + h.meth))
      + (if h.argsSize == 0 then [] else Tagged(5, 0, Varint(h.argsSize)))
      + (if h.error == 0 then [] else Tagged(6, 0, Varint(Extended(h.error))))
  {
    var a, b, c := EnumField(TYPE_TAG, h.typ), FixedField(ID_TAG, h.id), BytesField(SERVICE_TAG, h.service);
    var d, e, f := BytesField(METHOD_TAG, h.meth), UintField(ARGS_SIZE_TAG, h.argsSize), EnumField(ERROR_TAG, h.error);
    assert a == if h.typ == 0 then [] else Tagged(1, 0, Varint(Extended(h.typ)));
    assert c == if h.service == [] then [] else Tagged(3, 2, Varint(|h.service|) + h.service);
    assert d == if h.meth == [] then [] else Tagged(4, 2, Varint(|h.meth|) + h.meth);
    FromTheLeft(a, b, c, d, e, f);
  }

  lemma FromTheLeft(a: seq<byte>, b: seq<byte>, c: seq<byte>, d: seq<byte>, e: seq<byte>, f: seq<byte>)
    ensures a + (b + (c + (d + (e + f)))) == a + b + c + d + e + f
  {
    assert b + (c + (d + (e + f))) == b + c + d + e + f by {
      assert c + (d + (e + f)) == c + d + e + f by {
        assert d + (e + f) == d + e + f;
      }
    }
  }

  // ---------------------------------------------------------------- merge

  /** MergeFrom: the fields of `from` that are not zero replace those of h. */
  function Merged(h: Header, from: Header): Header {
    Header(if from.typ != 0 then from.typ else h.typ,
           if from.id != 0 then from.id else h.id,
           if from.service != [] then from.service else h.service,
           if from.meth != [] then from.meth else h.meth,
           if from.argsSize != 0 then from.argsSize else h.argsSize,
           if from.error != 0 then from.error else h.error)
  }

  // ---------------------------------------------------------------- parser

  /** Foreign: an unknown field, whose skipping is not modelled. */
  datatype Parse = Parsed(h: Header) | Malformed | Foreign

  /** One field read into h. */
  datatype Field = Field(h: Header, rest: seq<byte>) | BadField | UnknownField

  function ReadEnum(s: seq<byte>, h: Header, typ: bool): Field {
    match ReadVarint(s, MAX_VARINT)
    case None => BadField
    case Some(m) =>
      var x := Signed(Low32(m.n));
      Field(if typ then h.(typ := x) else h.(error := x), m.rest)
  }

  function ReadId(s: seq<byte>, h: Header): Field {
    if |s| < 4 then BadField else Field(h.(id := FromWord(s)), s[4..])
  }

  /** The length has at most five bytes, is at most MAX_FIELD and within the bytes. */
  function ReadBytes(s: seq<byte>, h: Header, service: bool): Field {
    match ReadVarint(s, MAX_VARINT32)
    case None => BadField
    case Some(m) =>
      if MAX_FIELD < m.n || |m.rest| < m.n then BadField
      else Field(if service then h.(service := m.rest[..m.n]) else h.(meth := m.rest[..m.n]), m.rest[m.n..])
  }

  function ReadArgsSize(s: seq<byte>, h: Header): Field {
    match ReadVarint(s, MAX_VARINT)
    case None => BadField
    case Some(m) => Field(h.(argsSize := Low32(m.n)), m.rest)
  }

  /** The body of the parse loop behind the tag. An end-group tag or a zero tag ends the parse early, which
      ParseFromString reports as a failure. */
  function ReadField(tag: uint32, s: seq<byte>, h: Header): Field {
    if tag == TYPE_TAG then ReadEnum(s, h, true)
    else if tag == ID_TAG then ReadId(s, h)
    else if tag == SERVICE_TAG then ReadBytes(s, h, true)
    else if tag == METHOD_TAG then ReadBytes(s, h, false)
    else if tag == ARGS_SIZE_TAG then ReadArgsSize(s, h)
    else if tag == ERROR_TAG then ReadEnum(s, h, false)
    else if tag % 8 == 4 || tag == 0 then BadField
    else UnknownField
  }

  lemma {:induction false} ReadVarintShortens(s: seq<byte>, max: nat)
    ensures ReadVarint(s, max).Some? ==> |ReadVarint(s, max).value.rest| < |s|
    decreases max
  {
    if s != [] && max > 0 && s[0] >= 0x80 {
      ReadVarintShortens(s[1..], max - 1);
    }
  }

  lemma ReadFieldShortens(tag: uint32, s: seq<byte>, h: Header)
    ensures ReadField(tag, s, h).Field? ==> |ReadField(tag, s, h).rest| <= |s|
  {
    ReadVarintShortens(s, MAX_VARINT);
    ReadVarintShortens(s, MAX_VARINT32);
  }

  /** _InternalParse on all of s, into a header that has fields already. */
  function ParseInto(s: seq<byte>, h: Header): Parse
    decreases |s|
  {
    if s == [] then Parsed(h)
    else
      match ReadVarint(s, MAX_VARINT32)
      case None => Malformed
      case Some(m) =>
        ReadVarintShortens(s, MAX_VARINT32);
        ReadFieldShortens(Low32(m.n), m.rest, h);
        match ReadField(Low32(m.n), m.rest, h)
        case BadField => Malformed
        case UnknownField => Foreign
        case Field(h', rest) => ParseInto(rest, h')
  }

  /** ParseFromString: clear, then parse. */
  function ParseHeader(s: seq<byte>): Parse {
    ParseInto(s, NO_HEADER)
  }

  // ---------------------------------------------------------------- round trip

  function AfterField(f: Field): Parse {
    match f
    case BadField => Malformed
    case UnknownField => Foreign
    case Field(h', rest) => ParseInto(rest, h')
  }

  lemma UnfoldParse(t: seq<byte>, h: Header)
    requires t != []
    ensures match ReadVarint(t, MAX_VARINT32)
            case None => ParseInto(t, h) == Malformed
            case Some(m) => ParseInto(t, h) == AfterField(ReadField(Low32(m.n), m.rest, h))
  {
  }

  lemma ShortTag(tag: byte, s: seq<byte>)
    requires tag < 0x80
    ensures ReadVarint([tag] + s, MAX_VARINT32) == Some(Number(tag, s)) && Low32(tag) == tag
  {
    assert ([tag] + s)[1..] == s;
  }

  lemma TagThen(tag: byte, s: seq<byte>, h: Header)
    requires tag < 0x80
    ensures ParseInto([tag] + s, h) == AfterField(ReadField(tag, s, h))
  {
    ShortTag(tag, s);
    UnfoldParse([tag] + s, h);
  }

  lemma ReadEnumBack(tag: byte, x: int32, h: Header, s: seq<byte>)
    requires tag == TYPE_TAG || tag == ERROR_TAG
    ensures ReadField(tag, Varint(Extended(x)) + s, h)
            == Field(if tag == TYPE_TAG then h.(typ := x) else h.(error := x), s)
  {
    Varint64Back(Extended(x), s);
    EnumRoundTrip(x);
  }

  lemma ReadBytesBack(tag: byte, b: seq<byte>, h: Header, s: seq<byte>)
    requires (tag == SERVICE_TAG || tag == METHOD_TAG) && |b| <= MAX_FIELD
    ensures ReadField(tag, Varint(|b|) + (b + s), h)
            == Field(if tag == SERVICE_TAG then h.(service := b) else h.(meth := b), s)
  {
    Varint32Back(|b|, b + s);
    assert (b + s)[..|b|] == b && (b + s)[|b|..] == s;
  }

  lemma ReadArgsSizeBack(n: uint32, h: Header, s: seq<byte>)
    ensures ReadField(ARGS_SIZE_TAG, Varint(n) + s, h) == Field(h.(argsSize := n), s)
  {
    Varint64Back(n, s);
  }

  lemma ReadIdBack(n: uint32, h: Header, s: seq<byte>)
    ensures ReadField(ID_TAG, Word(n) + s, h) == Field(h.(id := n), s)
  {
    WordRoundTrip(n, s);
    assert (Word(n) + s)[4..] == s;
  }

  /** What reading a printed field in front of s does. */
  ghost predicate ReadsAs(field: seq<byte>, s: seq<byte>, h: Header, h': Header) {
    ParseInto(field + s, h) == ParseInto(s, h')
  }

  lemma FieldBack(tag: byte, payload: seq<byte>, s: seq<byte>, h: Header, h': Header)
    requires tag < 0x80 && ReadField(tag, payload + s, h) == Field(h', s)
    ensures ReadsAs([tag] + payload, s, h, h')
  {
    TagThen(tag, payload + s, h);
    assert [tag] + payload + s == [tag] + (payload + s);
  }

  lemma NoField(s: seq<byte>, h: Header)
    ensures ReadsAs([], s, h, h)
  {
    assert [] + s == s;
  }

  lemma EnumBack(tag: byte, x: int32, h: Header, s: seq<byte>)
    requires tag == TYPE_TAG || tag == ERROR_TAG
    ensures ReadsAs(EnumField(tag, x), s, h,
                    if x == 0 then h else if tag == TYPE_TAG then h.(typ := x) else h.(error := x))
  {
    if x == 0 {
      NoField(s, h);
    } else {
      ReadEnumBack(tag, x, h, s);
      FieldBack(tag, Varint(Extended(x)), s, h, if tag == TYPE_TAG then h.(typ := x) else h.(error := x));
    }
  }

  lemma IdBack(n: uint32, h: Header, s: seq<byte>)
    ensures ReadsAs(FixedField(ID_TAG, n), s, h, if n == 0 then h else h.(id := n))
  {
    if n == 0 {
      NoField(s, h);
    } else {
      ReadIdBack(n, h, s);
      FieldBack(ID_TAG, Word(n), s, h, h.(id := n));
    }
  }

  lemma BytesBack(tag: byte, b: seq<byte>, h: Header, s: seq<byte>)
    requires (tag == SERVICE_TAG || tag == METHOD_TAG) && |b| <= MAX_FIELD
    ensures ReadsAs(BytesField(tag, b), s, h,
                    if b == [] then h else if tag == SERVICE_TAG then h.(service := b) else h.(meth := b))
  {
    if b == [] {
      NoField(s, h);
    } else {
      ReadBytesBack(tag, b, h, s);
      assert Varint(|b|) + b + s == Varint(|b|) + (b + s);
      assert BytesField(tag, b) == [tag] + (Varint(|b|) + b);
      FieldBack(tag, Varint(|b|) + b, s, h, if tag == SERVICE_TAG then h.(service := b) else h.(meth := b));
    }
  }

  lemma ArgsSizeBack(n: uint32, h: Header, s: seq<byte>)
    ensures ReadsAs(UintField(ARGS_SIZE_TAG, n), s, h, if n == 0 then h else h.(argsSize := n))
  {
    if n == 0 {
      NoField(s, h);
    } else {
      ReadArgsSizeBack(n, h, s);
      FieldBack(ARGS_SIZE_TAG, Varint(n), s, h, h.(argsSize := n));
    }
  }

  /** A header whose strings are short enough to be read back. */
  predicate Readable(h: Header) {
    |h.service| <= MAX_FIELD && |h.meth| <= MAX_FIELD
  }

  /** Reading a printed header in front of anything merges it into what was read before. */
  lemma ParsePrinted(a: Header, h: Header, s: seq<byte>)
    requires Readable(a)
    ensures ParseInto(Printed(a) + s, h) == ParseInto(s, Merged(h, a))
  {
    var f6 := EnumField(ERROR_TAG, a.error) + s;
    var f5 := UintField(ARGS_SIZE_TAG, a.argsSize) + f6;
    var f4 := BytesField(METHOD_TAG, a.meth) + f5;
    var f3 := BytesField(SERVICE_TAG, a.service) + f4;
    var f2 := FixedField(ID_TAG, a.id) + f3;
    var h1 := if a.typ == 0 then h else h.(typ := a.typ);
    var h2 := if a.id == 0 then h1 else h1.(id := a.id);
    var h3 := if a.service == [] then h2 else h2.(service := a.service);
    var h4 := if a.meth == [] then h3 else h3.(meth := a.meth);
    var h5 := if a.argsSize == 0 then h4 else h4.(argsSize := a.argsSize);
    PrintedThen(a, s);
    EnumBack(TYPE_TAG, a.typ, h, f2);
    IdBack(a.id, h1, f3);
    BytesBack(SERVICE_TAG, a.service, h2, f4);
    BytesBack(METHOD_TAG, a.meth, h3, f5);
    ArgsSizeBack(a.argsSize, h4, f6);
    EnumBack(ERROR_TAG, a.error, h5, s);
  }

  lemma PrintedThen(a: Header, s: seq<byte>)
    ensures Printed(a) + s ==
      EnumField(TYPE_TAG, a.typ) + (FixedField(ID_TAG, a.id) + (BytesField(SERVICE_TAG, a.service)
      + (BytesField(METHOD_TAG, a.meth)
         + (UintField(ARGS_SIZE_TAG, a.argsSize) + (EnumField(ERROR_TAG, a.error) + s)))))
  {
    Assoc6(EnumField(TYPE_TAG, a.typ), FixedField(ID_TAG, a.id), BytesField(SERVICE_TAG, a.service),
           BytesField(METHOD_TAG, a.meth), UintField(ARGS_SIZE_TAG, a.argsSize), EnumField(ERROR_TAG, a.error), s);
  }

  lemma Assoc6(a: seq<byte>, b: seq<byte>, c: seq<byte>, d: seq<byte>, e: seq<byte>, f: seq<byte>, s: seq<byte>)
    ensures (a + (b + (c + (d + (e + f))))) + s == a + (b + (c + (d + (e + (f + s)))))
  {
    assert (e + f) + s == e + (f + s);
    assert (d + (e + f)) + s == d + (e + (f + s));
    assert (c + (d + (e + f))) + s == c + (d + (e + (f + s)));
    assert (b + (c + (d + (e + f)))) + s == b + (c + (d + (e + (f + s))));
  }

  /** Reading two printed headers one after the other gives the second merged into the first: the last one
      wins, field by field. */
  lemma LastOneWins(a: Header, b: Header)
    requires Readable(a) && Readable(b)
    ensures ParseHeader(Printed(a) + Printed(b)) == Parsed(Merged(a, b))
  {
    ParsePrinted(a, NO_HEADER, Printed(b));
    ParsePrinted(b, a, []);
    assert Printed(b) + [] == Printed(b);
  }

  /** A printed header is read back. */
  lemma PrintParse(a: Header)
    requires Readable(a)
    ensures ParseHeader(Printed(a)) == Parsed(a)
  {
    ParsePrinted(a, NO_HEADER, []);
    assert Printed(a) + [] == Printed(a);
  }
}

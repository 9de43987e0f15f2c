/** The generated class arpc_header of src/arpc/arpc_header.pb.cc: fields changed in place, a printer that
    advances through a target buffer and a parser that advances through a string. Unknown fields are not
    kept, and the varint and word primitives stand for those of the protobuf library. */
module ArpcHeader {
  import opened Options
  import opened ArpcWire

  // ---------------------------------------------------------------- sizes

  /** The bytes of a varint below 2^32, as VarintSize32 counts them. */
  function VarintSize32(n: uint32): nat {
    if n < 0x80 then 1 else if n < 0x4000 then 2 else if n < 0x20_0000 then 3 else if n < 0x1000_0000 then 4 else 5
  }

  /** A negative enum takes ten bytes. */
  function EnumSize(x: int32): nat {
    if x < 0 then 10 else VarintSize32(x)
  }

  /** A varint has k bytes exactly if the number is below 128 to the k and, for more than one byte, not below the
      power before. */
  lemma {:induction false} VarintLength(n: nat, k: nat)
    requires 0 < k
    ensures |Varint(n)| == k <==> n < Pow128(k) && (k == 1 || Pow128(k - 1) <= n)
    decreases k
  {
    if k > 1 && 0x80 <= n {
      assert n < Pow128(k) <==> n / 0x80 < Pow128(k - 1);
      assert Pow128(k - 1) <= n <==> Pow128(k - 2) <= n / 0x80;
      VarintLength(n / 0x80, k - 1);
    } else {
      assert 1 <= Pow128(0);
      Pow128Grows(k - 1);
    }
  }

  lemma {:induction false} Pow128Grows(k: nat)
    ensures 0 < Pow128(k) && (0 < k ==> 0x80 <= Pow128(k))
  {
    if 0 < k {
      Pow128Grows(k - 1);
    }
  }

  lemma Powers()
    ensures Pow128(1) == 0x80 && Pow128(2) == 0x4000 && Pow128(3) == 0x20_0000 && Pow128(4) == 0x1000_0000
    ensures Pow128(5) == 0x8_0000_0000 && Pow128(9) == 0x8000_0000_0000_0000 && Pow128(10) == 0x40_0000_0000_0000_0000
  {
    assert Pow128(1) == 0x80 * Pow128(0);
    assert Pow128(2) == 0x80 * Pow128(1);
    assert Pow128(3) == 0x80 * Pow128(2);
    assert Pow128(4) == 0x80 * Pow128(3);
    assert Pow128(5) == 0x80 * Pow128(4);
    assert Pow128(6) == 0x80 * Pow128(5);
    assert Pow128(7) == 0x80 * Pow128(6);
    assert Pow128(8) == 0x80 * Pow128(7);
    assert Pow128(9) == 0x80 * Pow128(8);
    assert Pow128(10) == 0x80 * Pow128(9);
  }

  lemma SizeOfVarint32(n: uint32)
    ensures |Varint(n)| == VarintSize32(n)
  {
    Powers();
    VarintLength(n, VarintSize32(n));
  }

  lemma SizeOfEnum(x: int32)
    ensures |Varint(Extended(x))| == EnumSize(x)
  {
    if x < 0 {
      Powers();
      VarintLength(Extended(x), 10);
    } else {
      SizeOfVarint32(x);
    }
  }

  // ---------------------------------------------------------------- writing into a buffer

  method WriteBytes(target: array<byte>, at: nat, src: seq<byte>) returns (end: nat)
    requires at + |src| <= target.Length
    modifies target
    ensures end == at + |src| && target[..end] == old(target[..at]) + src
  {
    forall i | 0 <= i < |src| {
      target[at + i] := src[i];
    }
    end := at + |src|;
  }

  method WriteVarint(target: array<byte>, at: nat, n: nat) returns (end: nat)
    requires at + |Varint(n)| <= target.Length
    modifies target
    ensures end == at + |Varint(n)| && target[..end] == old(target[..at]) + Varint(n)
  {
    end := at;
    var value := n;
    while value >= 0x80
      invariant at <= end && end + |Varint(value)| == at + |Varint(n)|
      invariant target[..end] + Varint(value) == old(target[..at]) + Varint(n)
      decreases value
    {
      ghost var was := target[..end];
      target[end] := value % 0x80 + 0x80;
      assert target[..end + 1] == was + [value % 0x80 + 0x80];
      value := value / 0x80;
      end := end + 1;
    }
    ghost var was := target[..end];
    target[end] := value;
    assert target[..end + 1] == was + [value];
    end := end + 1;
  }

  method WriteEnum(target: array<byte>, at: nat, tag: byte, x: int32) returns (end: nat)
    requires at + |EnumField(tag, x)| <= target.Length
    modifies target
    ensures end == at + |EnumField(tag, x)| && target[..end] == old(target[..at]) + EnumField(tag, x)
  {
    end := at;
    if x != 0 {
      end := WriteBytes(target, end, [tag]);
      end := WriteVarint(target, end, Extended(x));
      Triple(old(target[..at]), [tag], Varint(Extended(x)));
    }
  }

  method WriteFixed32(target: array<byte>, at: nat, tag: byte, n: uint32) returns (end: nat)
    requires at + |FixedField(tag, n)| <= target.Length
    modifies target
    ensures end == at + |FixedField(tag, n)| && target[..end] == old(target[..at]) + FixedField(tag, n)
  {
    end := at;
    if n != 0 {
      end := WriteBytes(target, end, [tag]);
      end := WriteBytes(target, end, Word(n));
      Triple(old(target[..at]), [tag], Word(n));
    }
  }

  method WriteUint32(target: array<byte>, at: nat, tag: byte, n: uint32) returns (end: nat)
    requires at + |UintField(tag, n)| <= target.Length
    modifies target
    ensures end == at + |UintField(tag, n)| && target[..end] == old(target[..at]) + UintField(tag, n)
  {
    end := at;
    if n != 0 {
      end := WriteBytes(target, end, [tag]);
      end := WriteVarint(target, end, n);
      Triple(old(target[..at]), [tag], Varint(n));
    }
  }

  method WriteBytesField(target: array<byte>, at: nat, tag: byte, b: seq<byte>) returns (end: nat)
    requires at + |BytesField(tag, b)| <= target.Length
    modifies target
    ensures end == at + |BytesField(tag, b)| && target[..end] == old(target[..at]) + BytesField(tag, b)
  {
    end := at;
    if |b| > 0 {
      end := WriteBytes(target, end, [tag]);
      end := WriteVarint(target, end, |b|);
      end := WriteBytes(target, end, b);
      Triple(old(target[..at]), [tag], Varint(|b|));
      Triple(old(target[..at]), [tag] + Varint(|b|), b);
    }
  }

  lemma Triple(a: seq<byte>, b: seq<byte>, c: seq<byte>)
    ensures (a + b) + c == a + (b + c)
  {
  }

  lemma Regroup(a: seq<byte>, f1: seq<byte>, f2: seq<byte>, f3: seq<byte>, f4: seq<byte>, f5: seq<byte>, f6: seq<byte>)
    ensures ((((((a + f1) + f2) + f3) + f4) + f5) + f6) == a + (f1 + (f2 + (f3 + (f4 + (f5 + f6)))))
  {
    Triple(((((a + f1) + f2) + f3) + f4), f5, f6);
    Triple((((a + f1) + f2) + f3), f4, f5 + f6);
    Triple(((a + f1) + f2), f3, f4 + (f5 + f6));
    Triple((a + f1), f2, f3 + (f4 + (f5 + f6)));
    Triple(a, f1, f2 + (f3 + (f4 + (f5 + f6))));
  }

  // ---------------------------------------------------------------- reading from a string

  /** What a varint leaves of a suffix of s is a suffix of s. */
  lemma {:induction false} SuffixRest(s: seq<byte>, ptr: nat, max: nat)
    requires ptr <= |s|
    ensures var m := ReadVarint(s[ptr..], max);
            m.Some? ==> |m.value.rest| <= |s| && m.value.rest == s[|s| - |m.value.rest|..]
    decreases max
  {
    var t := s[ptr..];
    if t != [] && max > 0 {
      assert t[1..] == s[ptr + 1..];
      if t[0] >= 0x80 {
        SuffixRest(s, ptr + 1, max - 1);
      }
    }
  }

  lemma FieldRest(tag: uint32, s: seq<byte>, at: nat, h: Header)
    requires at <= |s|
    ensures var f := ReadField(tag, s[at..], h); f.Field? ==> |f.rest| <= |s| && f.rest == s[|s| - |f.rest|..]
  {
    SuffixRest(s, at, MAX_VARINT);
    SuffixRest(s, at, MAX_VARINT32);
  }

  lemma NothingLeft(h: Header)
    ensures ParseInto([], h) == Parsed(h)
  {
  }

  /** One round of the parse loop. */
  lemma OneField(s: seq<byte>, ptr: nat, h: Header)
    requires ptr < |s|
    ensures match ReadVarint(s[ptr..], MAX_VARINT32)
            case None => ParseInto(s[ptr..], h) == Malformed
            case Some(m) =>
              var at := |s| - |m.rest|;
              && ptr < at <= |s|
              && ParseInto(s[ptr..], h) == AfterField(ReadField(Low32(m.n), s[at..], h))
              && RestIsSuffix(ReadField(Low32(m.n), s[at..], h), s, at)
  {
    var t := s[ptr..];
    UnfoldParse(t, h);
    SuffixRest(s, ptr, MAX_VARINT32);
    ReadVarintShortens(t, MAX_VARINT32);
    match ReadVarint(t, MAX_VARINT32)
    case None =>
    case Some(m) =>
      assert m.rest == s[|s| - |m.rest|..];
      FieldIsSuffix(Low32(m.n), s, |s| - |m.rest|, h);
  }

  predicate RestIsSuffix(f: Field, s: seq<byte>, at: nat)
    requires at <= |s|
  {
    f.Field? ==> |f.rest| <= |s| - at && f.rest == s[|s| - |f.rest|..]
  }

  lemma FieldIsSuffix(tag: uint32, s: seq<byte>, at: nat, h: Header)
    requires at <= |s|
    ensures RestIsSuffix(ReadField(tag, s[at..], h), s, at)
  {
    FieldRest(tag, s, at, h);
    ReadFieldShortens(tag, s[at..], h);
  }

  class Message {
    var typ: int32
    var id: uint32
    var service: seq<byte>
    var meth: seq<byte>
    var argsSize: uint32
    var error: int32

    function Value(): Header
      reads this
    {
      Header(typ, id, service, meth, argsSize, error)
    }

    constructor ()
      ensures Value() == NO_HEADER
    {
      typ, id, service, meth, argsSize, error := 0, 0, [], [], 0, 0;
    }

    method Clear()
      modifies this
      ensures Value() == NO_HEADER
    {
      service := [];
      meth := [];
      typ, id, argsSize, error := 0, 0, 0, 0;
    }

    method MergeFrom(from: Message)
      requires from != this
      modifies this
      ensures Value() == Merged(old(Value()), from.Value())
    {
      if |from.service| > 0 {
        service := from.service;
      }
      if |from.meth| > 0 {
        meth := from.meth;
      }
      if from.typ != 0 {
        typ := from.typ;
      }
      if from.id != 0 {
        id := from.id;
      }
      if from.argsSize != 0 {
        argsSize := from.argsSize;
      }
      if from.error != 0 {
        error := from.error;
      }
    }

    method CopyFrom(from: Message)
      modifies this
      ensures Value() == old(from.Value())
    {
      if from != this {
        Clear();
        MergeFrom(from);
      }
    }

    /** ByteSizeLong: the exact length of what InternalSerialize writes. */
    method ByteSizeLong() returns (total: nat)
      requires |service| < 0x1_0000_0000 && |meth| < 0x1_0000_0000
      ensures total == |Printed(Value())|
    {
      total := 0;
      if |service| > 0 {
        SizeOfVarint32(|service|);
        total := total + 1 + VarintSize32(|service|) + |service|;
      }
      if |meth| > 0 {
        SizeOfVarint32(|meth|);
        total := total + 1 + VarintSize32(|meth|) + |meth|;
      }
      if typ != 0 {
        SizeOfEnum(typ);
        total := total + 1 + EnumSize(typ);
      }
      if id != 0 {
        total := total + 1 + 4;
      }
      if argsSize != 0 {
        SizeOfVarint32(argsSize);
        total := total + 1 + VarintSize32(argsSize);
      }
      if error != 0 {
        SizeOfEnum(error);
        total := total + 1 + EnumSize(error);
      }
    }

    /** _InternalSerialize into a buffer with room for it. */
    method InternalSerialize(target: array<byte>, at: nat) returns (end: nat)
      requires at + |Printed(Value())| <= target.Length
      modifies target
      ensures end == at + |Printed(Value())| && target[..end] == old(target[..at]) + Printed(Value())
    {
      ghost var was := target[..at];
      end := WriteEnum(target, at, TYPE_TAG, typ);
      ghost var f1 := EnumField(TYPE_TAG, typ);
      end := WriteFixed32(target, end, ID_TAG, id);
      ghost var f2 := FixedField(ID_TAG, id);
      end := WriteBytesField(target, end, SERVICE_TAG, service);
      ghost var f3 := BytesField(SERVICE_TAG, service);
      end := WriteBytesField(target, end, METHOD_TAG, meth);
      ghost var f4 := BytesField(METHOD_TAG, meth);
      end := WriteUint32(target, end, ARGS_SIZE_TAG, argsSize);
      ghost var f5 := UintField(ARGS_SIZE_TAG, argsSize);
      end := WriteEnum(target, end, ERROR_TAG, error);
      ghost var f6 := EnumField(ERROR_TAG, error);
      assert target[..end] == ((((((was + f1) + f2) + f3) + f4) + f5) + f6);
      Regroup(was, f1, f2, f3, f4, f5, f6);
    }

    method SerializeToString() returns (s: seq<byte>)
      requires |service| < 0x1_0000_0000 && |meth| < 0x1_0000_0000
      ensures s == Printed(Value())
    {
      var total := ByteSizeLong();
      var target := new byte[total](_ => 0);
      var end := InternalSerialize(target, 0);
      s := target[..end];
    }

    method Assign(h: Header)
      modifies this
      ensures Value() == h
    {
      typ, id, service, meth, argsSize, error := h.typ, h.id, h.service, h.meth, h.argsSize, h.error;
    }

    /** _InternalParse: the loop over the fields of s. */
    method InternalParse(s: seq<byte>) returns (result: Parse)
      modifies this
      ensures result == ParseInto(s, old(Value()))
      ensures result.Parsed? ==> Value() == result.h
    {
      hide ReadVarint, ReadField, ParseInto;
      NothingLeft(Value());
      var ptr := 0;
      assert s[ptr..] == s;
      while ptr < |s|
        invariant ptr <= |s| && ParseInto(s[ptr..], Value()) == ParseInto(s, old(Value()))
      {
        OneField(s, ptr, Value());
        var tag := ReadVarint(s[ptr..], MAX_VARINT32);
        if tag == None {
          return Malformed;
        }
        var at := |s| - |tag.value.rest|;
        var field := ReadField(Low32(tag.value.n), s[at..], Value());
        match field
        case BadField => return Malformed;
        case UnknownField => return Foreign;
        case Field(h, rest) =>
          Assign(h);
          ptr := |s| - |rest|;
      }
      NothingLeft(Value());
      assert s[ptr..] == [];
      result := Parsed(Value());
    }

    method ParseFromString(s: seq<byte>) returns (result: Parse)
      modifies this
      ensures result == ParseHeader(s)
      ensures result.Parsed? ==> Value() == result.h
    {
      Clear();
      result := InternalParse(s);
    }
  }
}

/** The bytes of a chat connection: the frames of src/chat_server/msg_node.cc and the reading of them in
    src/chat_server/csession.cc, on whole byte sequences. */
module ChatWire {
  const MAX_LENGTH: int := 2048
  const HEAD_LENGTH: nat := 4
  const MAX_SENDQUE: nat := 1000

  type byte = x: int | 0 <= x < 256
  type int16 = x: int | -0x8000 <= x < 0x8000

  datatype Message = Message(id: int16, body: seq<byte>)

  /** Conversion of an integer to a 16-bit short. */
  function ToShort(x: int): int16 {
    (x + 0x8000) % 0x1_0000 - 0x8000
  }

  function High(x: int16): byte {
    x % 0x1_0000 / 0x100
  }

  function Low(x: int16): byte {
    x % 0x100
  }

  /** A short in network order. */
  function ShortFrom(high: byte, low: byte): int16 {
    ToShort(high * 0x100 + low)
  }

  lemma ShortRoundTrip(x: int16)
    ensures ShortFrom(High(x), Low(x)) == x
  {
    assert x % 0x1_0000 == High(x) * 0x100 + Low(x);
  }

  lemma ShortFromIsOneToOne(high: byte, low: byte)
    ensures High(ShortFrom(high, low)) == high && Low(ShortFrom(high, low)) == low
  {
    var u := high * 0x100 + low;
    assert ShortFrom(high, low) == if u < 0x8000 then u else u - 0x1_0000;
    assert ShortFrom(high, low) % 0x1_0000 == u;
  }

  /** The short that a number of sixteen bits stands for, in two's complement. */
  function Signed(u: int): int {
    if u < 0x8000 then u else u - 0x1_0000
  }

  lemma NetworkOrder(x: int16)
    ensures High(x) as int * 0x100 + Low(x) as int == x as int % 0x1_0000
  {
  }

  lemma ShortFromIsSigned(high: byte, low: byte)
    ensures ShortFrom(high, low) == Signed(high as int * 0x100 + low as int)
  {
  }

  function Head(id: int16, length: int16): (h: seq<byte>)
    ensures |h| == HEAD_LENGTH
  {
    [High(id), Low(id), High(length), Low(length)]
  }

  /** A body whose frame has a length that a short can hold. */
  predicate Sendable(m: Message) {
    |m.body| + HEAD_LENGTH < 0x8000
  }

  predicate AllSendable(ms: seq<Message>) {
    forall m :: m in ms ==> Sendable(m)
  }

  function Frame(m: Message): seq<byte>
    requires Sendable(m)
  {
    Head(m.id, |m.body|) + m.body
  }

  function Frames(ms: seq<Message>): seq<byte>
    requires AllSendable(ms)
  {
    if ms == [] then [] else Frame(ms[0]) + Frames(ms[1..])
  }

  /** The receiver's limits; neither looks at the sign. */
  predicate Acceptable(m: Message) {
    m.id <= MAX_LENGTH && |m.body| <= MAX_LENGTH
  }

  /** The messages before the first one that is over a limit. */
  function Deliverable(ms: seq<Message>): seq<Message> {
    if ms == [] || !Acceptable(ms[0]) then [] else [ms[0]] + Deliverable(ms[1..])
  }

  datatype End = Open | Refused | Undefined

  datatype Parsed = Parsed(msgs: seq<Message>, rest: seq<byte>, end: End)

  function IdOf(s: seq<byte>): int16
    requires HEAD_LENGTH <= |s|
  {
    ShortFrom(s[0], s[1])
  }

  function LengthOf(s: seq<byte>): int16
    requires HEAD_LENGTH <= |s|
  {
    ShortFrom(s[2], s[3])
  }

  lemma HeadRoundTrip(id: int16, length: int16, rest: seq<byte>)
    ensures IdOf(Head(id, length) + rest) == id && LengthOf(Head(id, length) + rest) == length
  {
    ShortRoundTrip(id);
    ShortRoundTrip(length);
  }

  /** What a stream of bytes means to the receiver: the messages in it, what is left over and whether the
      receiver still reads. A negative length has no meaning. */
  function Parse(s: seq<byte>): Parsed
    decreases |s|
  {
    if |s| < HEAD_LENGTH then Parsed([], s, Open)
    else
      var id, length := IdOf(s), LengthOf(s);
      if MAX_LENGTH < id || MAX_LENGTH < length then Parsed([], s, Refused)
      else if length < 0 then Parsed([], s, Undefined)
      else if |s| < HEAD_LENGTH + length then Parsed([], s, Open)
      else
        var p := Parse(s[HEAD_LENGTH + length..]);
        Parsed([Message(id, s[HEAD_LENGTH..HEAD_LENGTH + length])] + p.msgs, p.rest, p.end)
  }

  /** A frame byte by byte: id and length with their high bytes first, then the body. */
  lemma FrameBytes(m: Message)
    requires Sendable(m)
    ensures var f := Frame(m);
      && |f| == 4 + |m.body| && f[4..] == m.body
      && f[0] as int * 0x100 + f[1] as int == m.id as int % 0x1_0000
      && f[2] as int * 0x100 + f[3] as int == |m.body|
  {
    NetworkOrder(m.id);
    NetworkOrder(|m.body|);
  }

  /** The first bytes of a stream decide: the id is in the first two, the high one first, the length in the next
      two, and a number of them from 0x8000 on is negative. */
  lemma ParseByBytes(s: seq<byte>)
    ensures |s| < 4 ==> Parse(s) == Parsed([], s, Open)
    ensures 4 <= |s| ==>
      var id := Signed(s[0] as int * 0x100 + s[1] as int);
      var length := Signed(s[2] as int * 0x100 + s[3] as int);
      && -0x8000 <= id < 0x8000
      && (2048 < id || 2048 < length ==> Parse(s) == Parsed([], s, Refused))
      && (id <= 2048 && length < 0 ==> Parse(s) == Parsed([], s, Undefined))
      && (id <= 2048 && 0 <= length <= 2048 && |s| < 4 + length ==> Parse(s) == Parsed([], s, Open))
      && (id <= 2048 && 0 <= length <= 2048 && 4 + length <= |s| ==>
          var p := Parse(s[4 + length..]);
          Parse(s) == Parsed([Message(id, s[4..4 + length])] + p.msgs, p.rest, p.end))
  {
    if 4 <= |s| {
      ShortFromIsSigned(s[0], s[1]);
      ShortFromIsSigned(s[2], s[3]);
    }
  }

  lemma {:induction false} FramesConcat(a: seq<Message>, b: seq<Message>)
    requires AllSendable(a) && AllSendable(b)
    ensures Frames(a + b) == Frames(a) + Frames(b)
  {
    if a == [] {
      assert a + b == b;
    } else {
      FramesConcat(a[1..], b);
      assert (a + b)[1..] == a[1..] + b;
    }
  }

  lemma FramesSnoc(a: seq<Message>, m: Message)
    requires AllSendable(a) && Sendable(m)
    ensures Frames(a + [m]) == Frames(a) + Frame(m)
  {
    FramesConcat(a, [m]);
    assert Frames([m]) == Frame(m) + Frames([]);
  }

  lemma FrameParts(m: Message, rest: seq<byte>)
    requires Sendable(m)
    ensures var s := Frame(m) + rest;
      && |s| == HEAD_LENGTH + |m.body| + |rest| && IdOf(s) == m.id && LengthOf(s) == |m.body|
      && s[HEAD_LENGTH..HEAD_LENGTH + |m.body|] == m.body && s[HEAD_LENGTH + |m.body|..] == rest
  {
    HeadRoundTrip(m.id, |m.body|, m.body + rest);
    assert Frame(m) + rest == Head(m.id, |m.body|) + (m.body + rest);
  }

  /** A frame is read back, whatever follows. */
  lemma ParseFrame(m: Message, rest: seq<byte>)
    requires Sendable(m)
    ensures Parse(Frame(m) + rest) ==
      if Acceptable(m) then Parsed([m] + Parse(rest).msgs, Parse(rest).rest, Parse(rest).end)
      else Parsed([], Frame(m) + rest, Refused)
  {
    FrameParts(m, rest);
  }

  /** Frames of acceptable messages are read back one for one, whatever follows. */
  lemma {:induction false} ParseFrames(ms: seq<Message>, rest: seq<byte>)
    requires AllSendable(ms) && forall m :: m in ms ==> Acceptable(m)
    ensures Parse(Frames(ms) + rest).msgs == ms + Parse(rest).msgs
    ensures Parse(Frames(ms) + rest).end == Parse(rest).end
  {
    if ms == [] {
      assert Frames(ms) + rest == rest;
    } else {
      ParseFrames(ms[1..], rest);
      ParseFirst(ms, rest);
      FirstApart(ms, Parse(rest).msgs);
    }
  }

  lemma FirstApart(ms: seq<Message>, more: seq<Message>)
    requires ms != []
    ensures ms + more == [ms[0]] + (ms[1..] + more)
  {
  }

  lemma ParseFirst(ms: seq<Message>, rest: seq<byte>)
    requires AllSendable(ms) && ms != [] && Acceptable(ms[0])
    ensures Parse(Frames(ms) + rest).msgs == [ms[0]] + Parse(Frames(ms[1..]) + rest).msgs
    ensures Parse(Frames(ms) + rest).end == Parse(Frames(ms[1..]) + rest).end
  {
    FirstFrame(ms, rest);
    ParseFrame(ms[0], Frames(ms[1..]) + rest);
  }

  lemma FirstFrame(ms: seq<Message>, rest: seq<byte>)
    requires AllSendable(ms) && ms != []
    ensures Frames(ms) + rest == Frame(ms[0]) + (Frames(ms[1..]) + rest)
  {
  }

  /** The whole stream of a sender means the messages before the first one over a limit. */
  lemma {:induction false} ParseStream(ms: seq<Message>)
    requires AllSendable(ms)
    ensures Parse(Frames(ms)).msgs == Deliverable(ms)
    ensures Parse(Frames(ms)).end == if Deliverable(ms) == ms then Open else Refused
  {
    if ms != [] {
      if Acceptable(ms[0]) {
        ParseStream(ms[1..]);
        ParseFrame(ms[0], Frames(ms[1..]));
        if Deliverable(ms) == ms {
          assert Deliverable(ms)[1..] == ms[1..];
        }
      } else {
        ParseFrame(ms[0], Frames(ms[1..]));
      }
    }
  }

  /** More bytes only add messages. */
  lemma {:induction false} ParsePrefix(s: seq<byte>, t: seq<byte>)
    ensures Parse(s).msgs <= Parse(s + t).msgs
    decreases |s|
  {
    if |s| >= HEAD_LENGTH {
      HeadExtends(s, t);
      var n := HEAD_LENGTH + LengthOf(s);
      if IdOf(s) <= MAX_LENGTH && 0 <= LengthOf(s) <= MAX_LENGTH && n <= |s| {
        ParsePrefix(s[n..], t);
        assert (s + t)[n..] == s[n..] + t;
        assert (s + t)[HEAD_LENGTH..n] == s[HEAD_LENGTH..n];
      }
    }
  }

  lemma HeadExtends(s: seq<byte>, t: seq<byte>)
    requires HEAD_LENGTH <= |s|
    ensures IdOf(s + t) == IdOf(s) && LengthOf(s + t) == LengthOf(s)
  {
  }

  // ---------------------------------------------------------------- a stream in progress

  lemma ParsePart(id: int16, length: int16, got: seq<byte>)
    requires id <= MAX_LENGTH && |got| < length <= MAX_LENGTH
    ensures Parse(Head(id, length) + got).msgs == [] && Parse(Head(id, length) + got).end == Open
  {
    HeadRoundTrip(id, length, got);
  }

  lemma ParseHeadOnly(s: seq<byte>)
    requires |s| == HEAD_LENGTH && Parse(s).end != Open
    ensures Parse(s).msgs == []
  {
    assert LengthOf(s) == 0 ==> s[HEAD_LENGTH..] == [];
  }

  lemma OneMoreFrame(ms: seq<Message>, k: nat)
    requires AllSendable(ms) && k < |ms|
    ensures Frames(ms[..k + 1]) == Frames(ms[..k]) + Frame(ms[k])
  {
    FramesSnoc(ms[..k], ms[k]);
    assert ms[..k + 1] == ms[..k] + [ms[k]];
  }

  /** Some whole frames and a part of the next are a prefix of all. */
  lemma PartOfFrames(ms: seq<Message>, k: nat, out: nat)
    requires AllSendable(ms) && k < |ms| && out <= |Frame(ms[k])|
    ensures Frames(ms[..k]) + Frame(ms[k])[..out] <= Frames(ms)
  {
    OneMoreFrame(ms, k);
    FramesConcat(ms[..k + 1], ms[k + 1..]);
    assert ms == ms[..k + 1] + ms[k + 1..];
  }

  /** End to end: whatever part of a sender's stream has been read, its messages are the first of those
      before the first one over a limit. */
  lemma DeliveredInOrder(accepted: seq<Message>, consumed: seq<byte>)
    requires AllSendable(accepted) && consumed <= Frames(accepted)
    ensures Parse(consumed).msgs <= Deliverable(accepted)
  {
    ParsePrefix(consumed, Frames(accepted)[|consumed|..]);
    assert Frames(accepted) == consumed + Frames(accepted)[|consumed|..];
    ParseStream(accepted);
  }

  /** The deliverable messages are all of them exactly when none is over a limit. */
  lemma {:induction false} AllDeliverable(ms: seq<Message>)
    ensures Deliverable(ms) <= ms
    ensures Deliverable(ms) == ms <==> forall m :: m in ms ==> Acceptable(m)
    ensures |Deliverable(ms)| < |ms| ==> !Acceptable(ms[|Deliverable(ms)|])
  {
    if ms != [] && Acceptable(ms[0]) {
      AllDeliverable(ms[1..]);
      assert ms == [ms[0]] + ms[1..];
      assert Deliverable(ms)[1..] == Deliverable(ms[1..]);
    }
  }
}

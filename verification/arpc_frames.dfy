/** The framing of src/arpc/arpc_server.cc and src/arpc/arpc_channel.cc: four bytes with the length of the
    printed header, the header, and as many bytes of arguments as the header says. Sockets, service lookup
    and the parsing of the arguments themselves are left out. */
module ArpcFrames {
  import opened Options
  import opened ArpcWire
  import opened ArpcHeader
  import opened ByteBuffer

  function FrameOf(h: Header, args: seq<byte>): seq<byte> {
    Word(Low32(|Printed(h)|)) + Printed(h) + args
  }

  /** A header that goes with these arguments and is not too long to be measured in four bytes. */
  predicate Describes(h: Header, args: seq<byte>) {
    Readable(h) && h.argsSize == |args| && |Printed(h)| < 0x1_0000_0000
  }

  /** The length of the header at the start of s, and the header. */
  function HeaderBytes(s: seq<byte>): seq<byte>
    requires HasHeader(s)
  {
    s[4..4 + FromWord(s)]
  }

  predicate HasHeader(s: seq<byte>) {
    4 <= |s| && 4 + FromWord(s) <= |s|
  }

  /** What on_message demands of the buffer, as it never checks how much has arrived. */
  predicate HasFrame(s: seq<byte>) {
    && HasHeader(s)
    && match ParseHeader(HeaderBytes(s))
       case Parsed(h) => 4 + FromWord(s) + h.argsSize <= |s|
       case _ => true
  }

  /** A frame at the start of s is all there, and is taken apart into what it was made of. */
  lemma FrameParts(h: Header, args: seq<byte>, rest: seq<byte>)
    requires Describes(h, args)
    ensures var s := FrameOf(h, args) + rest;
      && HasFrame(s) && HeaderBytes(s) == Printed(h) && ParseHeader(HeaderBytes(s)) == Parsed(h)
      && var n := 4 + FromWord(s); s[n..n + h.argsSize] == args && s[n + h.argsSize..] == rest
  {
    hide ParseHeader, Printed;
    var p := Printed(h);
    var s := FrameOf(h, args) + rest;
    WordRoundTrip(|p|, p + args + rest);
    assert s == Word(|p|) + (p + args + rest);
    assert s[4..4 + |p|] == p;
    assert s[4 + |p|..4 + |p| + |args|] == args;
    assert s[4 + |p| + |args|..] == rest;
    PrintParse(h);
  }

  // ---------------------------------------------------------------- the server

  /** What on_message makes of a frame: the call it asks for, or a header that cannot be read. ForeignCall: the
      header has a field that the parser would skip, and the model stops there. */
  datatype Received = Call(h: Header, args: seq<byte>) | Unreadable | ForeignCall

  /** What on_message gets from the bytes s, and what it leaves of them. The header is consumed even when it
      cannot be read, the arguments are then not. */
  function Decoded(s: seq<byte>): (Received, seq<byte>)
    requires HasFrame(s)
  {
    var n := 4 + FromWord(s);
    match ParseHeader(HeaderBytes(s))
    case Parsed(h) => (Call(h, s[n..n + h.argsSize]), s[n + h.argsSize..])
    case Malformed => (Unreadable, s[n..])
    case Foreign => (ForeignCall, s[n..])
  }

  /** The server takes a frame apart and leaves exactly what follows it. */
  lemma ServerDecodes(h: Header, args: seq<byte>, rest: seq<byte>)
    requires Describes(h, args)
    ensures HasFrame(FrameOf(h, args) + rest) && Decoded(FrameOf(h, args) + rest) == (Call(h, args), rest)
  {
    FrameParts(h, args, rest);
  }

  /** What a call leaves behind, whatever the header bytes p, the arguments and the bytes that follow: with a
      malformed header the arguments stay in the buffer, to be taken for the next frame; otherwise exactly what
      follows stays if and only if the header gives the length of the arguments. */
  lemma WhatIsLeft(p: seq<byte>, args: seq<byte>, rest: seq<byte>)
    requires |p| < 0x1_0000_0000
    ensures var s := Word(|p|) + p + args + rest;
      match ParseHeader(p)
      case Malformed => HasFrame(s) && Decoded(s) == (Unreadable, args + rest)
      case Parsed(h) =>
        && (HasFrame(s) <==> h.argsSize <= |args + rest|)
        && (HasFrame(s) ==> (Decoded(s).1 == rest <==> h.argsSize == |args|))
      case Foreign => true
  {
    hide ParseHeader;
    var s := Word(|p|) + p + args + rest;
    WordRoundTrip(|p|, p + args + rest);
    assert s == Word(|p|) + (p + args + rest);
    assert s[4..4 + |p|] == p;
    assert s[4 + |p|..] == args + rest;
    var r := ParseHeader(p);
    if r.Parsed? && HasFrame(s) {
      var m := r.h.argsSize;
      assert s[4 + |p| + m..] == (args + rest)[m..];
      assert |Decoded(s).1| == |args| + |rest| - m;
      assert m == |args| ==> (args + rest)[m..] == rest;
    }
  }

  /** A single zero byte is a malformed header: a byte of arguments behind it stays in the buffer. */
  lemma ArgumentsStay()
    ensures HasFrame([1, 0, 0, 0, 0, 7]) && Decoded([1, 0, 0, 0, 0, 7]) == (Unreadable, [7])
  {
    UnfoldParse([0], NO_HEADER);
    assert ReadVarint([0], MAX_VARINT32) == Some(Number(0, []));
    assert ParseHeader([0]) == Malformed;
    WhatIsLeft([0], [7], []);
    assert Word(1) + [0] + [7] + [] == [1, 0, 0, 0, 0, 7];
  }

  /** The framing part of on_message. */
  method OnMessage(buffer: Buffer) returns (r: Received)
    requires buffer.Valid() && HasFrame(buffer.Contents())
    modifies buffer`read, buffer`write
    ensures buffer.Valid() && (r, buffer.Contents()) == Decoded(old(buffer.Contents()))
  {
    hide ParseHeader, FromWord, HasFrame, Decoded;
    ghost var s := buffer.Contents();
    Steps(s);
    var recvBuf := buffer.RetrieveAsString(4);
    var hdrSize: nat := FromWord(recvBuf);
    Slices(s, hdrSize);
    var hdrStr := buffer.RetrieveAsString(hdrSize);
    var hdr := new Message();
    var parsed := hdr.ParseFromString(hdrStr);
    if !parsed.Parsed? {
      return if parsed.Malformed? then Unreadable else ForeignCall;
    }
    MoreSlices(s, 4 + hdrSize, hdr.argsSize);
    var argsStr := buffer.RetrieveAsString(hdr.argsSize);
    return Call(hdr.Value(), argsStr);
  }

  /** The decoding by the lengths that on_message reads. */
  lemma Steps(s: seq<byte>)
    requires HasFrame(s)
    ensures 4 <= |s| && 4 + FromWord(s) <= |s|
    ensures var n := 4 + FromWord(s);
      match ParseHeader(s[4..n])
      case Malformed => Decoded(s) == (Unreadable, s[n..])
      case Foreign => Decoded(s) == (ForeignCall, s[n..])
      case Parsed(h) =>
        n + h.argsSize <= |s| && Decoded(s) == (Call(h, s[n..n + h.argsSize]), s[n + h.argsSize..])
  {
    hide ParseHeader, FromWord;
  }

  lemma Slices(s: seq<byte>, n: nat)
    requires 4 <= |s| && n == FromWord(s[..4])
    ensures n == FromWord(s)
    ensures 4 + n <= |s| ==> s[4..][..n] == s[4..4 + n] && s[4..][n..] == s[4 + n..]
  {
  }

  lemma MoreSlices(s: seq<byte>, n: nat, m: nat)
    requires n + m <= |s|
    ensures s[n..][..m] == s[n..n + m] && s[n..][m..] == s[n + m..]
  {
  }

  /** send_response: a RESPONSE header with the id of the call in front of the printed response. */
  method SendResponse(id: uint32, response: seq<byte>) returns (sendStr: seq<byte>)
    ensures sendStr == FrameOf(Header(RESPONSE, id, [], [], Low32(|response|), 0), response)
  {
    var hdr := new Message();
    hdr.id := id;
    hdr.argsSize := Low32(|response|);
    hdr.typ := RESPONSE;
    var hdrStr := hdr.SerializeToString();
    sendStr := Word(Low32(|hdrStr|));
    sendStr := sendStr + hdrStr;
    sendStr := sendStr + response;
  }

  // ---------------------------------------------------------------- the channel

  /** A call under way: which call it is, and whether the caller wants the response. */
  datatype OutCall = OutCall(token: nat, wanted: bool)

  /** OutOfRange: substr throws, as the position is behind the end of the string. ForeignAnswer: the header has a
      field that the parser would skip, and the model stops there. */
  datatype Answer =
    | Completed(call: OutCall, response: seq<byte>)
    | Dropped(call: OutCall)
    | NotFound
    | NotResponse
    | BadAnswer
    | OutOfRange
    | ForeignAnswer

  function Unsigned(x: int32): uint32 {
    if x < 0 then x + 0x1_0000_0000 else x
  }

  /** substr, which clips what is too long. */
  function Clipped(s: seq<byte>, from: nat, n: nat): seq<byte>
    requires from <= |s|
  {
    s[from..if from + n <= |s| then from + n else |s|]
  }

  /** What the bytes recv mean to the calls under way, and what they leave of them: the call with the id of the
      response is taken off and gets the bytes behind the header, as many of them as there are. The position
      behind the header is an unsigned sum, which may wrap. */
  function AnswerTo(recv: seq<byte>, calls: map<int32, OutCall>): (Answer, map<int32, OutCall>) {
    if |recv| < 4 then (OutOfRange, calls)
    else
      match ParseHeader(Clipped(recv, 4, FromWord(recv)))
      case Parsed(h) =>
        if h.typ != RESPONSE then (NotResponse, calls)
        else if Signed(h.id) !in calls then (NotFound, calls)
        else
          var o, from := calls[Signed(h.id)], Low32(4 + FromWord(recv));
          (if !o.wanted then Dropped(o)
           else if |recv| < from then OutOfRange
           else Completed(o, Clipped(recv, from, h.argsSize)),
           calls - {Signed(h.id)})
      case Malformed => (BadAnswer, calls)
      case Foreign => (ForeignAnswer, calls)
  }

  /** A response to a call completes that call, with exactly the response. */
  lemma ChannelDecodes(h: Header, response: seq<byte>, rest: seq<byte>, calls: map<int32, OutCall>)
    requires Describes(h, response) && |Printed(h)| + 4 < 0x1_0000_0000
    requires h.typ == RESPONSE && Signed(h.id) in calls && calls[Signed(h.id)].wanted
    ensures AnswerTo(FrameOf(h, response) + rest, calls)
            == (Completed(calls[Signed(h.id)], response), calls - {Signed(h.id)})
  {
    hide ParseHeader, Printed;
    FrameParts(h, response, rest);
    var s := FrameOf(h, response) + rest;
    Below32(4 + FromWord(s));
  }

  /** The bytes p of a header name a call under way that wants its response. */
  predicate Names(p: seq<byte>, calls: map<int32, OutCall>) {
    match ParseHeader(p)
    case Parsed(h) => h.typ == RESPONSE && Signed(h.id) in calls && calls[Signed(h.id)].wanted
    case _ => false
  }

  /** From these lengths on the position behind the header wraps around to the start of what was received. */
  const WRAPS: uint32 := 0xFFFF_FFFC

  /** Bytes that end before the header is complete, by the length in front, and what there is of the header names a
      call that wants its response: the call is taken off the table, and it gets no response unless the length is
      one of the last four, for which it is completed with bytes from the length or the header on. */
  lemma CutShort(recv: seq<byte>, calls: map<int32, OutCall>)
    requires 4 <= |recv| < 4 + FromWord(recv)
    ensures AnswerTo(recv, calls).0.Completed? <==> Names(recv[4..], calls) && WRAPS <= FromWord(recv)
    ensures AnswerTo(recv, calls).0 == OutOfRange <==> Names(recv[4..], calls) && FromWord(recv) < WRAPS
    ensures Names(recv[4..], calls) ==> var h := ParseHeader(recv[4..]).h;
            && AnswerTo(recv, calls).1 == calls - {Signed(h.id)}
            && (WRAPS <= FromWord(recv) ==>
                AnswerTo(recv, calls).0
                  == Completed(calls[Signed(h.id)], Clipped(recv, FromWord(recv) - WRAPS, h.argsSize)))
  {
    hide ParseHeader;
    if FromWord(recv) < WRAPS {
      Below32(4 + FromWord(recv));
    } else {
      Below32(FromWord(recv) - WRAPS);
      assert Low32(4 + FromWord(recv)) == FromWord(recv) - WRAPS;
    }
    assert Clipped(recv, 4, FromWord(recv)) == recv[4..];
  }

  /** A whole header behind a length that is too large: the call it answers is lost, or completed with bytes that are
      no response to it. */
  lemma LongLength(h: Header, n: uint32, calls: map<int32, OutCall>)
    requires Readable(h) && h.typ == RESPONSE && Signed(h.id) in calls && calls[Signed(h.id)].wanted
    requires |Printed(h)| < n
    ensures var s := Word(n) + Printed(h);
            AnswerTo(s, calls)
            == (if n < WRAPS then OutOfRange else Completed(calls[Signed(h.id)], Clipped(s, n - WRAPS, h.argsSize)),
                calls - {Signed(h.id)})
  {
    hide ParseHeader, Printed;
    var s := Word(n) + Printed(h);
    WordRoundTrip(n, Printed(h));
    assert s[4..] == Printed(h);
    PrintParse(h);
    CutShort(s, calls);
  }

  /** With the largest length call 0 is completed with the last byte of the length and three of the header. */
  lemma CompletedWithHeader(out: OutCall)
    requires out.wanted
    ensures AnswerTo([255, 255, 255, 255, 8, 1, 40, 4], map[0 := out]) == (Completed(out, [255, 8, 1, 40]), map[])
  {
    var h := Header(RESPONSE, 0, [], [], 4, 0);
    assert Printed(h) == [8, 1, 40, 4];
    hide Printed;
    var s: seq<byte> := [255, 255, 255, 255, 8, 1, 40, 4];
    assert Word(0xFFFF_FFFF) + Printed(h) == s;
    LongLength(h, 0xFFFF_FFFF, map[0 := out]);
    assert Clipped(s, 3, 4) == [255, 8, 1, 40];
    assert map[0 := out] - {0} == map[];
  }

  /** The id of the k-th call, counted from zero. */
  function IdAt(k: nat): int32 {
    Signed(Low32(k))
  }

  lemma NextId(k: nat)
    ensures Signed(Low32(IdAt(k) + 1)) == IdAt(k + 1)
  {
  }

  /** Two calls have the same id if and only if a multiple of 2^32 calls lies between them. */
  lemma SameId(j: nat, k: nat)
    ensures IdAt(j) == IdAt(k) <==> (k - j) % 0x1_0000_0000 == 0
  {
  }

  lemma IdUnderWay(calls: map<int32, OutCall>, madeAs: map<int32, nat>, made: nat)
    requires madeAs.Keys == calls.Keys && forall id :: id in calls ==> IdAt(madeAs[id]) == id
    ensures IdAt(made) in calls <==> exists i :: i in calls && (made - madeAs[i]) % 0x1_0000_0000 == 0
  {
    hide IdAt;
    forall i | i in calls ensures i == IdAt(made) <==> (made - madeAs[i]) % 0x1_0000_0000 == 0 {
      SameId(madeAs[i], made);
    }
  }

  class Channel {
    var nextId: int32
    var calls: map<int32, OutCall>
    ghost var made: nat                       // how many calls have been made
    ghost var madeAs: map<int32, nat>         // which of them each call under way is

    ghost predicate Valid()
      reads this
    {
      && nextId == IdAt(made) && madeAs.Keys == calls.Keys
      && forall id :: id in calls ==> madeAs[id] < made && IdAt(madeAs[id]) == id
    }

    constructor ()
      ensures Valid() && nextId == 0 && calls == map[] && made == 0
    {
      nextId, calls := 0, map[];
      made, madeAs := 0, map[];
    }

    /** The framing part of CallMethod: a REQUEST header with the next id in front of the printed arguments.
        The id is that of a call under way exactly if that call was made a multiple of 2^32 calls ago. */
    method CallMethod(service: seq<byte>, meth: seq<byte>, args: seq<byte>, out: OutCall)
      returns (id: int32, sendStr: seq<byte>)
      requires Valid() && |service| < 0x1_0000_0000 && |meth| < 0x1_0000_0000
      modifies this
      ensures Valid() && made == old(made) + 1 && madeAs == old(madeAs)[id := old(made)]
      ensures id == IdAt(old(made)) && calls == old(calls)[id := out]
      ensures id in old(calls) <==>
              exists i :: i in old(calls) && (old(made) - old(madeAs)[i]) % 0x1_0000_0000 == 0
      ensures sendStr == FrameOf(Header(REQUEST, Unsigned(id), service, meth, Low32(|args|), 0), args)
    {
      hide Printed, Word, IdAt;
      id := nextId;
      IdUnderWay(calls, madeAs, made);
      NextId(made);
      nextId := Signed(Low32(nextId + 1));
      var hdr := new Message();
      hdr.typ := REQUEST;
      hdr.id := Unsigned(id);
      hdr.service := service;
      hdr.meth := meth;
      hdr.argsSize := Low32(|args|);
      calls := calls[id := out];
      madeAs := madeAs[id := made];
      made := made + 1;
      var hdrStr := hdr.SerializeToString();
      sendStr := Word(Low32(|hdrStr|));
      sendStr := sendStr + hdrStr;
      sendStr := sendStr + args;
    }

    /** The response decoding. */
    method OnResponse(recv: seq<byte>) returns (answer: Answer)
      requires Valid()
      modifies this`calls, this`madeAs
      ensures Valid() && (answer, calls) == AnswerTo(recv, old(calls))
      ensures madeAs == map id | id in old(madeAs) && id in calls :: old(madeAs)[id]
    {
      hide ParseHeader;
      if |recv| < 4 {
        return OutOfRange;
      }
      var hdrSize: nat := FromWord(recv);
      var hdr := new Message();
      var parsed := hdr.ParseFromString(Clipped(recv, 4, hdrSize));
      if !parsed.Parsed? {
        return if parsed.Malformed? then BadAnswer else ForeignAnswer;
      }
      if hdr.typ != RESPONSE {
        return NotResponse;
      }
      var recvId := Signed(hdr.id);
      if recvId !in calls {
        return NotFound;
      }
      var o := calls[recvId];
      calls := calls - {recvId};
      madeAs := madeAs - {recvId};
      if !o.wanted {
        return Dropped(o);
      }
      var from: nat := Low32(4 + hdrSize);
      if |recv| < from {
        return OutOfRange;
      }
      return Completed(o, Clipped(recv, from, hdr.argsSize));
    }
  }

  // ---------------------------------------------------------------- end to end

  lemma RequestDecodes(id: int32, service: seq<byte>, meth: seq<byte>, args: seq<byte>, more: seq<byte>)
    requires |args| < 0x1_0000_0000 && Describes(Header(REQUEST, Unsigned(id), service, meth, |args|, 0), args)
    ensures var s := FrameOf(Header(REQUEST, Unsigned(id), service, meth, Low32(|args|), 0), args) + more;
      HasFrame(s) && Decoded(s) == (Call(Header(REQUEST, Unsigned(id), service, meth, |args|, 0), args), more)
  {
    Below32(|args|);
    ServerDecodes(Header(REQUEST, Unsigned(id), service, meth, |args|, 0), args, more);
  }

  lemma Below32(n: nat)
    requires n < 0x1_0000_0000
    ensures Low32(n) == n
  {
  }

  lemma ResponseCompletes(id: int32, response: seq<byte>, calls: map<int32, OutCall>)
    requires id in calls && calls[id].wanted && |response| < 0x1_0000_0000
    ensures var frame := FrameOf(Header(RESPONSE, Unsigned(id), [], [], Low32(|response|), 0), response);
      AnswerTo(frame, calls) == (Completed(calls[id], response), calls - {id})
  {
    var h := Header(RESPONSE, Unsigned(id), [], [], |response|, 0);
    Below32(|response|);
    PrintedResponse(h);
    ChannelDecodes(h, response, [], calls);
    NothingBehind(FrameOf(h, response));
  }

  /** The way of a call: the server gets exactly what was sent, and leaves exactly what follows it. */
  method Ask(channel: Channel, buffer: Buffer, service: seq<byte>, meth: seq<byte>, args: seq<byte>, more: seq<byte>,
             out: OutCall)
    returns (id: int32, received: Received)
    requires channel.Valid() && buffer.Valid() && buffer.Contents() == []
    requires |service| < 0x1_0000_0000 && |meth| < 0x1_0000_0000 && |args| < 0x1_0000_0000
    requires Describes(Header(REQUEST, Unsigned(channel.nextId), service, meth, |args|, 0), args)
    modifies channel, buffer, buffer.buf
    ensures channel.Valid() && id == old(channel.nextId) && channel.calls == old(channel.calls)[id := out]
    ensures received == Call(Header(REQUEST, Unsigned(id), service, meth, |args|, 0), args)
    ensures buffer.Valid() && buffer.Contents() == more
  {
    var request;
    id, request := channel.CallMethod(service, meth, args, out);
    buffer.Append(request + more);
    NothingBefore(request + more);
    RequestDecodes(id, service, meth, args, more);
    received := OnMessage(buffer);
  }

  /** The way of a response: it completes exactly the call with its id, the others stay. */
  method Respond(channel: Channel, id: int32, response: seq<byte>) returns (answer: Answer)
    requires channel.Valid() && id in channel.calls && channel.calls[id].wanted && |response| < 0x1_0000_0000
    modifies channel
    ensures channel.Valid() && answer == Completed(old(channel.calls)[id], response)
    ensures channel.calls == old(channel.calls) - {id}
  {
    var frame := SendResponse(Unsigned(id), response);
    ResponseCompletes(id, response, channel.calls);
    answer := channel.OnResponse(frame);
  }

  /** A call and its response: the server gets the call and nothing else, the caller gets its response, and
      the calls under way are as before. */
  method RoundTrip(channel: Channel, buffer: Buffer, service: seq<byte>, meth: seq<byte>, args: seq<byte>,
                   response: seq<byte>, more: seq<byte>, out: OutCall) returns (received: Received, answer: Answer)
    requires channel.Valid() && buffer.Valid() && buffer.Contents() == [] && out.wanted
    requires channel.nextId !in channel.calls
    requires |service| < 0x1_0000_0000 && |meth| < 0x1_0000_0000 && |args| < 0x1_0000_0000 && |response| < 0x1_0000_0000
    requires Describes(Header(REQUEST, Unsigned(channel.nextId), service, meth, |args|, 0), args)
    modifies channel, buffer, buffer.buf
    ensures received == Call(Header(REQUEST, Unsigned(old(channel.nextId)), service, meth, |args|, 0), args)
    ensures buffer.Valid() && buffer.Contents() == more
    ensures channel.Valid() && answer == Completed(out, response) && channel.calls == old(channel.calls)
  {
    var id;
    id, received := Ask(channel, buffer, service, meth, args, more, out);
    answer := Respond(channel, Signed(received.h.id), response);
    assert channel.calls == old(channel.calls)[id := out] - {id};
  }

  lemma NothingBefore(s: seq<byte>)
    ensures [] + s == s
  {
  }

  lemma NothingBehind(s: seq<byte>)
    ensures s + [] == s
  {
  }

  /** A response header is short. */
  lemma PrintedResponse(h: Header)
    requires h.service == [] && h.meth == []
    ensures |Printed(h)| <= 33
  {
    SizeOfEnum(h.typ);
    SizeOfEnum(h.error);
    SizeOfVarint32(h.argsSize);
  }
}

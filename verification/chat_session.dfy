/** The two halves of a chat session, src/chat_server/csession.cc: the send queue with one write in
    flight, and the reader that takes head and body from a byte stream in pieces of any size. The socket
    is modelled by the bytes it has taken and given; logging and the logic system are left out. */
module ChatSession {
  import opened ChatWire

  // ---------------------------------------------------------------- the frame encoder

  /** memcpy into a buffer. */
  method CopyInto(buffer: array<byte>, at: nat, src: seq<byte>)
    requires at + |src| <= buffer.Length
    modifies buffer
    ensures buffer[..] == old(buffer[..at]) + src + old(buffer[at + |src|..])
  {
    forall i | 0 <= i < |src| {
      buffer[at + i] := src[i];
    }
  }

  /** A frame ready to be written: its buffer without the terminating zero. */
  datatype SendNode = SendNode(data: seq<byte>, totalLen: int16)

  /** The send_node constructor: id and length in network order, then maxLen bytes of the message. */
  method NewSendNode(msg: seq<byte>, maxLen: int16, id: int16) returns (node: SendNode)
    requires 0 <= maxLen <= |msg| && maxLen + HEAD_LENGTH < 0x8000
    ensures node.data == Frame(Message(id, msg[..maxLen])) && node.totalLen == |node.data| == 4 + maxLen
    ensures node.data[0] as int * 0x100 + node.data[1] as int == id as int % 0x1_0000
    ensures node.data[2] as int * 0x100 + node.data[3] as int == maxLen
    ensures node.data[4..] == msg[..maxLen]
  {
    var totalLen := maxLen + HEAD_LENGTH;
    var data := new byte[totalLen + 1](_ => 0);
    CopyInto(data, 0, [High(id), Low(id)]);
    CopyInto(data, 2, [High(maxLen), Low(maxLen)]);
    CopyInto(data, HEAD_LENGTH, msg[..maxLen]);
    assert data[..HEAD_LENGTH] == Head(id, maxLen);
    assert data[..totalLen] == data[..HEAD_LENGTH] + data[HEAD_LENGTH..totalLen];
    node := SendNode(data[..totalLen], totalLen);
    FrameBytes(Message(id, msg[..maxLen]));
  }

  // ---------------------------------------------------------------- the sender

  /** An asynchronous write that the socket has not reported on: its bytes and how many are out. */
  datatype Write = Write(data: seq<byte>, out: nat)

  class Sender {
    var sendQue: seq<SendNode>
    var inFlight: seq<Write>
    var wire: seq<byte>
    var failed: bool
    ghost var accepted: seq<Message>
    ghost var written: nat

    /** The messages of the queue are the accepted ones that are not written yet, in order. */
    ghost predicate Queued()
      reads this
    {
      && AllSendable(accepted)
      && written + |sendQue| == |accepted| && |sendQue| <= MAX_SENDQUE + 1
      && forall i :: 0 <= i < |sendQue| ==> sendQue[i].data == Frame(accepted[written + i])
    }

    /** Exactly one write is in flight when the queue has a message, the write of its front; the wire has
        the written messages and the part of the front that is out. After a failed write nothing more goes
        out. */
    ghost predicate Valid()
      reads this
    {
      && Queued()
      && (if failed then inFlight == [] && sendQue != [] && wire <= Frames(accepted)
          else if sendQue == [] then inFlight == [] && wire == Frames(accepted)
          else
            && |inFlight| == 1 && inFlight[0].data == sendQue[0].data && inFlight[0].out <= |inFlight[0].data|
            && wire == Frames(accepted[..written]) + inFlight[0].data[..inFlight[0].out])
    }

    constructor ()
      ensures Valid() && accepted == [] && wire == [] && !failed
    {
      sendQue, inFlight, wire, failed, accepted, written := [], [], [], false, [], 0;
    }

    method AsyncWrite(node: SendNode)
      modifies this`inFlight
      ensures inFlight == old(inFlight) + [Write(node.data, 0)]
    {
      inFlight := inFlight + [Write(node.data, 0)];
    }

    /** send: refused once the queue is longer than its limit; the length is cut to a short. */
    method Send(msg: seq<byte>, id: int16) returns (taken: bool)
      requires Valid() && 0 <= ToShort(|msg|) && ToShort(|msg|) + HEAD_LENGTH < 0x8000
      modifies this
      ensures Valid() && wire == old(wire) && failed == old(failed)
      ensures taken <==> old(|sendQue|) <= 1000
      ensures accepted == if taken then old(accepted) + [Message(id, msg[..ToShort(|msg|)])] else old(accepted)
    {
      var sendQueSize := |sendQue|;
      if sendQueSize > MAX_SENDQUE {
        return false;
      }
      var node := NewSendNode(msg, ToShort(|msg|), id);
      ghost var m := Message(id, msg[..ToShort(|msg|)]);
      FramesSnoc(accepted, m);
      assert (accepted + [m])[..written] == accepted[..written];
      accepted := accepted + [m];
      sendQue := sendQue + [node];
      if sendQueSize > 0 {
        return true;
      }
      assert accepted[..written] == old(accepted);
      AsyncWrite(sendQue[0]);
      return true;
    }

    /** The socket takes n more bytes of the write in flight. */
    method Transfer(n: nat)
      requires Valid() && inFlight != [] && inFlight[0].out + n <= |inFlight[0].data|
      modifies this`wire, this`inFlight
      ensures Valid() && old(wire) <= wire && |wire| == |old(wire)| + n && accepted == old(accepted)
    {
      var w := inFlight[0];
      wire := wire + w.data[w.out..w.out + n];
      inFlight := [w.(out := w.out + n)] + inFlight[1..];
      assert w.data[..w.out] + w.data[w.out..w.out + n] == w.data[..w.out + n];
    }

    /** handle_write, called by the socket when a write is all out or has failed. */
    method HandleWrite(error: bool)
      requires Valid() && inFlight != [] && (!error ==> inFlight[0].out == |inFlight[0].data|)
      modifies this
      ensures Valid() && wire == old(wire) && accepted == old(accepted)
      ensures failed == error && written == if error then old(written) else old(written) + 1
    {
      inFlight := inFlight[1..];
      if !error {
        OneMoreFrame(accepted, written);
        assert written + 1 == |accepted| ==> accepted[..written + 1] == accepted;

        sendQue := sendQue[1..];
        written := written + 1;
        if sendQue != [] {
          AsyncWrite(sendQue[0]);
        }
      } else {
        PartOfFrames(accepted, written, old(inFlight[0].out));
        failed := true;
      }
    }
  }

  // ---------------------------------------------------------------- the receiver

  class Receiver {
    const data: array<byte>
    var readLen: nat
    var totalLen: nat
    var inBody: bool
    var msgId: int16
    var msgLen: int16
    var reading: bool
    var failed: bool
    var undefined: bool
    var posted: seq<Message>
    var consumed: seq<byte>

    /** What has been read of the frame in progress. */
    ghost function Partial(): seq<byte>
      requires readLen <= data.Length
      reads this, data
    {
      (if inBody then Head(msgId, msgLen) else []) + data[..readLen]
    }

    ghost predicate Core()
      reads this, data
    {
      && data.Length == MAX_LENGTH && readLen <= totalLen <= MAX_LENGTH
      && AllSendable(posted) && (forall m :: m in posted ==> Acceptable(m))
      && consumed == Frames(posted) + Partial()
      && totalLen == (if inBody then msgLen else HEAD_LENGTH)
      && (inBody ==> msgId <= MAX_LENGTH)
    }

    /** A read is in progress, or the head that was read is not a head to go on with, or the socket
        has failed. */
    ghost predicate Valid()
      reads this, data
    {
      && Core()
      && (reading ==> !failed && !undefined && (readLen < totalLen || totalLen == 0))
      && (!reading && !failed ==>
        && !inBody && readLen == HEAD_LENGTH
        && Parse(data[..HEAD_LENGTH]).end == if undefined then Undefined else Refused)
    }

    /** How many bytes the read in progress asks for. */
    function Want(): nat
      requires Valid()
      reads this, data
    {
      totalLen - readLen
    }

    /** start: the first read, for a head. */
    constructor ()
      ensures Valid() && fresh(data) && consumed == [] && posted == [] && reading
    {
      data := new byte[MAX_LENGTH](_ => 0);
      readLen, totalLen, inBody, msgId, msgLen := 0, HEAD_LENGTH, false, 0, 0;
      reading, failed, undefined, posted, consumed := true, false, false, [], [];
    }

    /** async_read_full: clear the buffer and read total bytes into it. */
    method ReadFull(total: nat)
      modifies this`readLen, this`totalLen, this`reading, data
      ensures readLen == 0 && totalLen == total && reading
    {
      forall i | 0 <= i < data.Length {
        data[i] := 0;
      }
      readLen, totalLen, reading := 0, total, true;
    }

    /** The handler of a whole head. */
    method OnHead()
      requires Core() && !reading && !failed && !undefined && !inBody && readLen == HEAD_LENGTH
      modifies this, data
      ensures Valid() && consumed == old(consumed) && posted == old(posted) && !failed
      ensures var id := Signed(old(data[0]) as int * 0x100 + old(data[1]) as int);
        var length := Signed(old(data[2]) as int * 0x100 + old(data[3]) as int);
        && (reading <==> id <= 2048 && 0 <= length <= 2048)
        && (undefined <==> id <= 2048 && length < 0)
        && (reading ==> inBody && msgId == id && msgLen == length && totalLen == length && readLen == 0)
    {
      ghost var head := data[..HEAD_LENGTH];
      assert IdOf(head) == ShortFrom(data[0], data[1]) && LengthOf(head) == ShortFrom(data[2], data[3]);
      ShortFromIsSigned(data[0], data[1]);
      ShortFromIsSigned(data[2], data[3]);
      var id := ShortFrom(data[0], data[1]);
      if id > MAX_LENGTH {
        return;
      }
      var length := ShortFrom(data[2], data[3]);
      if length > MAX_LENGTH {
        return;
      }
      if length < 0 {
        undefined := true;
        return;
      }
      ShortFromIsOneToOne(data[0], data[1]);
      ShortFromIsOneToOne(data[2], data[3]);
      assert head == Head(id, length);
      msgId, msgLen, inBody := id, length, true;
      ReadFull(length);
      assert Partial() == head;
    }

    /** The handler of a whole body. */
    method OnBody()
      requires Core() && !reading && !failed && !undefined && inBody && readLen == totalLen
      modifies this, data
      ensures Valid() && consumed == old(consumed) && !failed
      ensures posted == old(posted) + [Message(old(msgId), old(data[..readLen]))]
    {
      var m := Message(msgId, data[..msgLen]);
      FramesSnoc(posted, m);
      posted := posted + [m];
      inBody := false;
      ReadFull(HEAD_LENGTH);
      assert Partial() == [];
    }

    /** The read in progress completes with some bytes, at most as many as it asked for. */
    method OnRead(bytes: seq<byte>)
      requires Valid() && reading && |bytes| <= Want()
      modifies this, data
      ensures Valid() && consumed == old(consumed) + bytes && old(posted) <= posted && !failed
    {
      hide Frames, Parse;
      CopyInto(data, readLen, bytes);
      assert data[..readLen + |bytes|] == old(data[..readLen]) + bytes;
      readLen := readLen + |bytes|;
      consumed := consumed + bytes;
      assert Partial() == old(Partial()) + bytes;
      if readLen < totalLen {
        return;
      }
      reading := false;
      if inBody {
        OnBody();
      } else {
        OnHead();
      }
    }

    /** The read in progress fails; the session is closed. */
    method OnError()
      requires Valid() && reading
      modifies this`reading, this`failed
      ensures Valid() && consumed == old(consumed) && posted == old(posted) && failed
    {
      reading, failed := false, true;
    }

    /** Whatever the sizes of the reads were: unless a failure cut it short or an empty body is still due,
        the receiver has posted exactly what the bytes mean, and it reads on exactly if they say so. */
    lemma PostedIsParsed()
      requires Valid() && !failed && (reading ==> 0 < Want())
      ensures posted == Parse(consumed).msgs
      ensures Parse(consumed).end == if reading then Open else if undefined then Undefined else Refused
    {
      ParseFrames(posted, Partial());
      if reading {
        if inBody {
          ParsePart(msgId, msgLen, data[..readLen]);
        }
        assert Parse(Partial()).msgs == [] && Parse(Partial()).end == Open;
      } else {
        assert Partial() == data[..HEAD_LENGTH];
        ParseHeadOnly(data[..HEAD_LENGTH]);
      }
    }

    /** At every moment it has posted no more than the bytes mean. */
    lemma PostedIsPrefix()
      requires Valid()
      ensures posted <= Parse(consumed).msgs
    {
      ParseFrames(posted, Partial());
    }
  }

  // ---------------------------------------------------------------- both ends

  /** What can happen on a connection, in any order; what is not possible at the moment does not happen. */
  datatype Event =
    Send(msg: seq<byte>, id: int16) | Transfer(n: nat) | WriteDone | WriteFails | Read(n: nat) | ReadFails

  /** The length of a message as the sender cuts it to a short is one that a frame can have. */
  predicate CanBeSent(e: Event) {
    e.Send? ==> 0 <= ToShort(|e.msg|) && ToShort(|e.msg|) + HEAD_LENGTH < 0x8000
  }

  class Connection {
    const sender: Sender
    const receiver: Receiver

    ghost predicate Valid()
      reads this, sender, receiver, receiver.data
    {
      sender.Valid() && receiver.Valid() && receiver.consumed <= sender.wire
    }

    constructor ()
      ensures Valid() && sender.accepted == [] && receiver.posted == []
      ensures fresh(sender) && fresh(receiver) && fresh(receiver.data)
    {
      sender := new Sender();
      receiver := new Receiver();
    }

    /** The next n bytes of the wire reach the receiver, if it reads and asks for as many. */
    method Deliver(n: nat)
      requires Valid()
      modifies receiver, receiver.data
      ensures Valid() && old(receiver.posted) <= receiver.posted
    {
      var from := |receiver.consumed|;
      if receiver.reading && n <= receiver.Want() && from + n <= |sender.wire| {
        receiver.OnRead(sender.wire[from..from + n]);
      }
    }

    method Happens(e: Event)
      requires Valid() && CanBeSent(e)
      modifies sender, receiver, receiver.data
      ensures Valid() && old(sender.accepted) <= sender.accepted && old(receiver.posted) <= receiver.posted
    {
      match e
      case Send(msg, id) =>
        var taken := sender.Send(msg, id);
      case Transfer(n) =>
        if sender.inFlight != [] && sender.inFlight[0].out + n <= |sender.inFlight[0].data| {
          sender.Transfer(n);
        }
      case WriteDone =>
        if sender.inFlight != [] && sender.inFlight[0].out == |sender.inFlight[0].data| {
          sender.HandleWrite(false);
        }
      case WriteFails =>
        if sender.inFlight != [] {
          sender.HandleWrite(true);
        }
      case Read(n) =>
        Deliver(n);
      case ReadFails =>
        if receiver.reading {
          receiver.OnError();
        }
    }

    /** At every moment of every run the messages posted are the first of those accepted before the first
        one over a limit, with ids and bodies intact; when the whole stream has been read and no failure
        cut it short, they are all of these. */
    lemma EndToEnd()
      requires Valid()
      ensures AllSendable(sender.accepted) && receiver.posted <= Deliverable(sender.accepted)
      ensures receiver.consumed == Frames(sender.accepted) && !receiver.failed &&
              (receiver.reading ==> 0 < receiver.Want()) ==>
        receiver.posted == Deliverable(sender.accepted)
    {
      WireIsPrefix();
      DeliveredInOrder(sender.accepted, receiver.consumed);
      receiver.PostedIsPrefix();
      if !receiver.failed && (receiver.reading ==> 0 < receiver.Want()) {
        receiver.PostedIsParsed();
        ParseStream(sender.accepted);
      }
    }

    lemma WireIsPrefix()
      requires sender.Valid()
      ensures sender.wire <= Frames(sender.accepted)
    {
      if !sender.failed && sender.sendQue != [] {
        PartOfFrames(sender.accepted, sender.written, sender.inFlight[0].out);
      }
    }
  }

  /** A connection and any events on it. */
  method Run(events: seq<Event>) returns (c: Connection)
    requires forall e :: e in events ==> CanBeSent(e)
    ensures c.Valid() && AllSendable(c.sender.accepted) && c.receiver.posted <= Deliverable(c.sender.accepted)
  {
    c := new Connection();
    for i := 0 to |events|
      invariant c.Valid() && fresh(c.sender) && fresh(c.receiver) && fresh(c.receiver.data)
    {
      c.Happens(events[i]);
    }
    c.EndToEnd();
  }
}

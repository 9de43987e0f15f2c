/** `buffer` of inc/mmuduo/buffer.h: bytes are appended at the write index and taken at the read index of one
    array, which is compacted in place or grown when it runs out of room. */
module ByteBuffer {
  import opened ArpcWire

  const PREPEND: nat := 8

  class Buffer {
    var buf: array<byte>
    var read: nat
    var write: nat

    predicate Valid()
      reads this
    {
      PREPEND <= read <= write <= buf.Length
    }

    /** The bytes that can be read. */
    function Contents(): (s: seq<byte>)
      requires Valid()
      reads this, buf
      ensures |s| == ReadableBytes()
    {
      buf[read..write]
    }

    function ReadableBytes(): nat
      requires Valid()
      reads this
    {
      write - read
    }

    function WritableBytes(): nat
      requires Valid()
      reads this
    {
      buf.Length - write
    }

    function PrependableBytes(): nat
      reads this
    {
      read
    }

    constructor (initSize: nat)
      ensures Valid() && Contents() == [] && fresh(buf) && WritableBytes() == initSize
    {
      buf := new byte[PREPEND + initSize](_ => 0);
      read, write := PREPEND, PREPEND;
    }

    method RetrieveAll()
      modifies this`read, this`write
      requires Valid()
      ensures Valid() && Contents() == [] && read == write == PREPEND
    {
      read, write := PREPEND, PREPEND;
    }

    method Retrieve(len: nat)
      requires Valid()
      modifies this`read, this`write
      ensures Valid() && Contents() == if len < |old(Contents())| then old(Contents())[len..] else []
    {
      if len < ReadableBytes() {
        read := read + len;
        return;
      }
      RetrieveAll();
    }

    method RetrieveAsString(len: nat) returns (res: seq<byte>)
      requires Valid() && len <= ReadableBytes()
      modifies this`read, this`write
      ensures Valid() && res == old(Contents())[..len] && Contents() == old(Contents())[len..]
    {
      res := buf[read..read + len];
      Retrieve(len);
    }

    method RetrieveAllAsString() returns (res: seq<byte>)
      requires Valid()
      modifies this`read, this`write
      ensures Valid() && res == old(Contents()) && Contents() == []
    {
      res := RetrieveAsString(ReadableBytes());
    }

    /** std::copy of [from, to) down to dst, byte by byte from the left; the stretches may overlap. */
    method CopyDown(from: nat, to: nat, dst: nat)
      requires dst <= from <= to <= buf.Length
      modifies buf
      ensures buf[dst..dst + (to - from)] == old(buf[from..to])
      ensures buf[..dst] == old(buf[..dst]) && buf[to..] == old(buf[to..])
    {
      var i := 0;
      while i < to - from
        invariant 0 <= i <= to - from
        invariant forall k :: dst <= k < dst + i ==> buf[k] == old(buf[..])[k + (from - dst)]
        invariant forall k :: 0 <= k < dst || dst + i <= k < buf.Length ==> buf[k] == old(buf[k])
      {
        buf[dst + i] := buf[from + i];
        i := i + 1;
      }
    }

    /** The vector's resize to a greater length. */
    method Grow(length: nat)
      requires buf.Length <= length
      modifies this`buf
      ensures buf.Length == length && fresh(buf) && buf[..old(buf.Length)] == old(buf[..])
    {
      var wider := new byte[length](i requires 0 <= i < length reads this, buf => if i < buf.Length then buf[i] else 0);
      buf := wider;
    }

    /** Room for len more bytes: by growing when all free bytes together are too few, else by moving what
        can be read down to the front. */
    method MakeSpace(len: nat)
      requires Valid() && WritableBytes() < len
      modifies this, buf
      ensures Valid() && Contents() == old(Contents()) && len <= WritableBytes()
      ensures buf == old(buf) || fresh(buf)
      ensures buf == old(buf) <==> old(WritableBytes() + PrependableBytes()) >= len + PREPEND
    {
      if WritableBytes() + PrependableBytes() < len + PREPEND {
        ghost var was := buf[..];
        Grow(write + len);
        assert buf[..write] == was[..write];
        assert buf[read..write] == was[read..write];
        return;
      }
      var readable := ReadableBytes();
      CopyDown(read, write, PREPEND);
      read := PREPEND;
      write := PREPEND + readable;
    }

    method EnsureWritableBytes(len: nat)
      requires Valid()
      modifies this, buf
      ensures Valid() && Contents() == old(Contents()) && len <= WritableBytes()
      ensures buf == old(buf) || fresh(buf)
    {
      if WritableBytes() < len {
        MakeSpace(len);
      }
    }

    /** First in, first out: what is appended is read after all that was there. */
    method Append(data: seq<byte>)
      requires Valid()
      modifies this, buf
      ensures Valid() && Contents() == old(Contents()) + data
      ensures buf == old(buf) || fresh(buf)
    {
      EnsureWritableBytes(|data|);
      ghost var was := buf[read..write];
      forall i | 0 <= i < |data| {
        buf[write + i] := data[i];
      }
      assert buf[read..write] == was && buf[write..write + |data|] == data;
      assert buf[read..write + |data|] == buf[read..write] + buf[write..write + |data|];
      write := write + |data|;
    }
  }

  // ---------------------------------------------------------------- any sequence of operations

  datatype Op = Put(data: seq<byte>) | Take(len: nat)

  /** All bytes put in. */
  function AllIn(ops: seq<Op>): seq<byte> {
    if ops == [] then [] else AllIn(ops[..|ops| - 1]) + match ops[|ops| - 1] case Put(d) => d case Take(_) => []
  }

  /** Whatever is appended and taken, what came out followed by what is left is what went in. A take of more
      than there is does not happen. */
  method Use(ops: seq<Op>, initSize: nat) returns (b: Buffer, out: seq<byte>)
    ensures b.Valid() && out + b.Contents() == AllIn(ops)
  {
    b := new Buffer(initSize);
    out := [];
    for n := 0 to |ops|
      invariant b.Valid() && fresh(b) && fresh(b.buf)
      invariant out + b.Contents() == AllIn(ops[..n])
    {
      ghost var was := b.Contents();
      assert ops[..n + 1][..n] == ops[..n];
      match ops[n]
      case Put(data) =>
        b.Append(data);
        assert out + (was + data) == (out + was) + data;
      case Take(len) =>
        if len <= b.ReadableBytes() {
          var piece := b.RetrieveAsString(len);
          assert (out + piece) + b.Contents() == out + was;
          out := out + piece;
        }
    }
    assert ops[..|ops|] == ops;
  }
}

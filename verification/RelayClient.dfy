/** The peer's end of a session: a buffered output stream flushed as numbered posts, a poll loop that
    queues what the relay sends, and an input stream that reads the queue byte by byte. */
module RelayClient {
  import opened Wrappers
  import opened Bytes
  import opened RelayMessages

  /** The end marker is one object, told apart from data by identity, whatever bytes the data holds. */
  datatype Item = Data(bytes: seq<byte>) | StreamClosed

  /** `chunks` are all chunks flushed so far, `written` all bytes written to the output stream and
      `delivered` all bytes returned by the input stream. */
  datatype Peer = Peer(
    session: string, closed: bool, buffer: seq<byte>, toRelay: nat, toPeer: nat,
    queue: seq<Item>, current: seq<byte>, noMoreData: bool,
    chunks: seq<seq<byte>>, written: seq<byte>, delivered: seq<byte>)

  function Opened(session: string): Peer {
    Peer(session, false, [], 0, 0, [], [], false, [], [], [])
  }

  // ----- output

  function Write(p: Peer, bytes: seq<byte>): Outcome<Peer> {
    if p.closed then Thrown else Done(p.(buffer := p.buffer + bytes, written := p.written + bytes))
  }

  /** The buffer is emptied whether or not the post arrives; an empty buffer posts nothing. */
  function Flush(p: Peer): (Peer, Option<PeerMessage>) {
    if p.buffer == [] then (p, None)
    else (p.(buffer := [], toRelay := p.toRelay + 1, chunks := p.chunks + [p.buffer]),
          Some(PeerToRelay(p.session, p.toRelay + 1, p.buffer)))
  }

  /** Every byte written was flushed or is still in the buffer, and chunks are numbered as they are flushed. */
  predicate Buffered(p: Peer) {
    && p.written == Flatten(p.chunks) + p.buffer
    && p.toRelay == |p.chunks|
    && forall i :: 0 <= i < |p.chunks| ==> p.chunks[i] != []
  }

  lemma {:induction false} WriteKeepsBuffered(p: Peer, bytes: seq<byte>)
    requires Buffered(p)
    ensures Write(p, bytes).Done? ==> Buffered(Write(p, bytes).value)
  {
    assert Flatten(p.chunks) + p.buffer + bytes == Flatten(p.chunks) + (p.buffer + bytes);
  }

  lemma {:induction false} FlushKeepsBuffered(p: Peer)
    requires Buffered(p)
    ensures Buffered(Flush(p).0)
    ensures Flush(p).1.Some? ==> Flush(p).0.chunks[|p.chunks|] == p.buffer
  {
    FlattenSnoc(p.chunks, p.buffer);
    assert p.written + [] == p.written;
  }

  // ----- input

  /** Whether the poll loop goes on after the reply, or the exception, that its post came back with. */
  function Polled(p: Peer, reply: Outcome<ServerMessage>): (Peer, bool) {
    if p.closed || reply.Thrown? then (p, false)
    else match reply.value
      case RelayToPeer(sequence, data) =>
        if sequence != p.toPeer + 1 then (p, false)
        else (p.(queue := if data == [] then p.queue else p.queue + [Data(data)], toPeer := sequence), true)
      case _ => (p, false)
  }

  datatype ReadResult = Got(value: byte) | EndOfStream | Blocked | ReadFailed

  /** The loop of a read, which looks at the queue and no longer at whether the connection is closed. `Blocked` stands
      for a read that keeps waiting. */
  function ReadFrom(p: Peer): (Peer, ReadResult)
    decreases |p.queue|
  {
    if p.current != [] then (p.(current := p.current[1..], delivered := p.delivered + [p.current[0]]), Got(p.current[0]))
    else if p.queue == [] then (p, Blocked)
    else match p.queue[0]
      case StreamClosed => (p.(queue := p.queue[1..], noMoreData := true), EndOfStream)
      case Data(bytes) => ReadFrom(p.(queue := p.queue[1..], current := bytes))
  }

  /** One `read`: the connection is looked at once, before the loop. */
  function ReadByte(p: Peer): (Peer, ReadResult) {
    if p.closed then (p, ReadFailed) else if p.noMoreData then (p, EndOfStream) else ReadFrom(p)
  }

  function BytesOf(item: Item): seq<byte> {
    if item.Data? then item.bytes else []
  }

  function QueueBytes(queue: seq<Item>): seq<byte> {
    if queue == [] then [] else BytesOf(queue[0]) + QueueBytes(queue[1..])
  }

  /** All bytes that have reached the peer: returned, being read, or queued. */
  function Arrived(p: Peer): seq<byte> {
    p.delivered + p.current + QueueBytes(p.queue)
  }

  lemma {:induction false} QueueSnoc(queue: seq<Item>, item: Item)
    ensures QueueBytes(queue + [item]) == QueueBytes(queue) + BytesOf(item)
    decreases |queue|
  {
    if queue == [] {
      assert QueueBytes([item][1..]) == [] && BytesOf(item) + [] == BytesOf(item);
    } else {
      assert (queue + [item])[0] == queue[0] && (queue + [item])[1..] == queue[1..] + [item];
      QueueSnoc(queue[1..], item);
    }
  }

  /** An accepted poll adds exactly its data to what has arrived. */
  lemma {:induction false} PolledArrives(p: Peer, reply: Outcome<ServerMessage>)
    ensures var (p', ok) := Polled(p, reply);
            && (ok ==> reply.Done? && reply.value.RelayToPeer? && reply.value.sequence == p.toPeer + 1 == p'.toPeer
                       && Arrived(p') == Arrived(p) + reply.value.data)
            && (!ok ==> p' == p)
  {
    if Polled(p, reply).1 {
      var data := reply.value.data;
      QueueSnoc(p.queue, Data(data));
      assert Arrived(p) + [] == Arrived(p);
      assert p.delivered + p.current + (QueueBytes(p.queue) + data) == Arrived(p) + data;
    }
  }

  /** Reading, also one that was waiting when the connection closed, changes what has arrived in no way: it only moves
      the first byte not yet returned, and comes to the end exactly if the marker stands before any byte. */
  lemma {:induction false} ReadKeepsArrived(p: Peer)
    ensures var (p', r) := ReadFrom(p);
            && Arrived(p') == Arrived(p)
            && p'.delivered == p.delivered + (if r.Got? then [r.value] else [])
            && (Arrived(p) == p.delivered && StreamClosed in p.queue ==> r.EndOfStream?)
            && (StreamClosed !in p.queue ==> !r.EndOfStream?)
    decreases |p.queue|
  {
    if p.current != [] {
      assert p.delivered + p.current == p.delivered + [p.current[0]] + p.current[1..];
      assert |Arrived(p)| > |p.delivered|;
    } else if p.queue != [] {
      var next := p.(queue := p.queue[1..], current := BytesOf(p.queue[0]));
      assert p.delivered + p.current + (next.current + QueueBytes(next.queue)) == p.delivered + next.current + QueueBytes(next.queue);
      assert forall x :: x in p.queue <==> x == p.queue[0] || x in next.queue;
      if p.queue[0].Data? {
        ReadKeepsArrived(next);
      }
    }
  }

  /** A read that waits while the connection closes still gets what had arrived, and comes to the end after it. */
  lemma {:induction false} WaitingReadEnds(p: Peer)
    requires !p.closed
    ensures var r := ReadFrom(Closing(p).0).1; r.Got? || r.EndOfStream?
    ensures Arrived(p) == p.delivered ==> ReadFrom(Closing(p).0).1.EndOfStream?
    ensures ReadByte(Closing(p).0).1.ReadFailed?
  {
    ClosingKeepsArrived(p);
    ReadKeepsArrived(Closing(p).0);
    MarkerEnds(Closing(p).0);
    var q := Closing(p).0.queue;
    assert q[|q| - 1] == StreamClosed;
    assert Closing(p).0.delivered == p.delivered;
  }

  lemma {:induction false} MarkerEnds(p: Peer)
    requires StreamClosed in p.queue
    ensures !ReadFrom(p).1.Blocked? && !ReadFrom(p).1.ReadFailed?
    decreases |p.queue|
  {
    if p.current == [] && p.queue[0].Data? {
      MarkerEnds(p.(queue := p.queue[1..], current := p.queue[0].bytes));
    }
  }

  // ----- closing

  /** The last flush of a closing connection; the marker ends the input. */
  function Closing(p: Peer): (Peer, Option<PeerMessage>) {
    var (p', m) := Flush(p.(closed := true));
    (p'.(queue := p'.queue + [StreamClosed]), m)
  }

  lemma {:induction false} ClosingKeepsArrived(p: Peer)
    ensures Arrived(Closing(p).0) == Arrived(p)
  {
    var p' := Flush(p.(closed := true)).0;
    QueueSnoc(p'.queue, StreamClosed);
  }

  /** What a closing connection posts: the closing message only follows a flush that went through. */
  function Farewell(p: Peer, posted: bool): seq<PeerMessage> {
    var m := Flush(p).1;
    (if m.Some? then [m.value] else []) + (if posted || m.None? then [PeerClosing(p.session)] else [])
  }

  /** The connection object. `outbox` is all that was posted; the outcome of a post is a parameter. */
  class HttpRelayConnection {
    const sessionId: string
    var isClosed: bool
    var buffer: seq<byte>
    var peerToRelaySequence: nat
    var relayToPeerSequence: nat
    var incomingDataQueue: seq<Item>
    var current: seq<byte>
    var noMoreData: bool
    var outbox: seq<PeerMessage>
    ghost var chunks: seq<seq<byte>>
    ghost var written: seq<byte>
    ghost var delivered: seq<byte>

    /** A session id is never empty: the reply to the connect message is checked for it. */
    constructor (sessionId: string)
      requires sessionId != ""
      ensures State() == Opened(sessionId) && outbox == [] && Valid()
    {
      this.sessionId := sessionId;
      isClosed, buffer, peerToRelaySequence, relayToPeerSequence := false, [], 0, 0;
      incomingDataQueue, current, noMoreData, outbox := [], [], false, [];
      chunks, written, delivered := [], [], [];
    }

    ghost function State(): Peer
      reads this
    {
      Peer(sessionId, isClosed, buffer, peerToRelaySequence, relayToPeerSequence, incomingDataQueue, current, noMoreData,
           chunks, written, delivered)
    }

    ghost predicate Valid()
      reads this
    {
      sessionId != "" && Buffered(State())
    }

    method WriteByte(b: byte) returns (ok: bool)
      requires Valid()
      modifies this`buffer, this`written
      ensures Valid() && ok == Write(old(State()), [b]).Done?
      ensures State() == if ok then Write(old(State()), [b]).value else old(State())
    {
      ok := WriteBytes([b], 0, 1);
    }

    method WriteBytes(bytes: seq<byte>, offset: nat, size: nat) returns (ok: bool)
      requires Valid() && offset + size <= |bytes|
      modifies this`buffer, this`written
      ensures Valid() && ok == Write(old(State()), bytes[offset..offset + size]).Done?
      ensures State() == if ok then Write(old(State()), bytes[offset..offset + size]).value else old(State())
    {
      WriteKeepsBuffered(State(), bytes[offset..offset + size]);
      ok := !isClosed;
      if ok {
        buffer := buffer + bytes[offset..offset + size];
        written := written + bytes[offset..offset + size];
      }
    }

    /** Posts the buffer, if there is anything in it; `false` when the post failed. */
    method FlushStream(posted: bool) returns (ok: bool)
      requires Valid()
      modifies this`buffer, this`peerToRelaySequence, this`chunks, this`outbox
      ensures Valid() && State() == Flush(old(State())).0
      ensures outbox == old(outbox) + (if Flush(old(State())).1.Some? then [Flush(old(State())).1.value] else [])
      ensures ok == (posted || old(buffer) == [])
    {
      FlushKeepsBuffered(State());
      var data := buffer;
      buffer := [];
      ok := true;
      if data != [] {
        peerToRelaySequence := peerToRelaySequence + 1;
        outbox := outbox + [PeerToRelay(sessionId, peerToRelaySequence, data)];
        chunks := chunks + [data];
        ok := posted;
      }
    }

    /** The poll loop, given what its posts come back with. It ends at the first reply it does not accept. */
    method PollLoop(replies: seq<Outcome<ServerMessage>>)
      requires Valid()
      modifies this`incomingDataQueue, this`relayToPeerSequence, this`outbox
      ensures Valid() && State() == PolledAll(old(State()), replies)
      ensures old(outbox) <= outbox && forall i :: |old(outbox)| <= i < |outbox| ==> outbox[i] == WaitForData(sessionId)
    {
      var i := 0;
      while i < |replies| && !isClosed
        invariant 0 <= i <= |replies| && Valid()
        invariant PolledAll(State(), replies[i..]) == PolledAll(old(State()), replies)
        invariant old(outbox) <= outbox && forall k :: |old(outbox)| <= k < |outbox| ==> outbox[k] == WaitForData(sessionId)
        decreases |replies| - i
      {
        assert replies[i..][0] == replies[i] && replies[i..][1..] == replies[i + 1..];
        outbox := outbox + [WaitForData(sessionId)];
        if replies[i].Thrown? || !replies[i].value.RelayToPeer? || replies[i].value.sequence != relayToPeerSequence + 1 {
          return;
        }
        if replies[i].value.data != [] {
          incomingDataQueue := incomingDataQueue + [Data(replies[i].value.data)];
        }
        relayToPeerSequence := replies[i].value.sequence;
        i := i + 1;
      }
    }

    method Read() returns (r: ReadResult)
      requires Valid()
      modifies this`incomingDataQueue, this`current, this`noMoreData, this`delivered
      ensures Valid() && (State(), r) == ReadByte(old(State()))
    {
      if isClosed {
        return ReadFailed;
      }
      if noMoreData {
        return EndOfStream;
      }
      r := Await();
    }

    /** The loop of a read. A read that comes back `Blocked` goes on here, whatever has happened to the connection since. */
    method Await() returns (r: ReadResult)
      requires Valid()
      modifies this`incomingDataQueue, this`current, this`noMoreData, this`delivered
      ensures Valid() && (State(), r) == ReadFrom(old(State()))
    {
      while current == []
        invariant Valid()
        invariant ReadFrom(State()) == ReadFrom(old(State()))
        decreases |incomingDataQueue|, |current|
      {
        if incomingDataQueue == [] {
          return Blocked;
        }
        var item := incomingDataQueue[0];
        incomingDataQueue := incomingDataQueue[1..];
        match item
        case StreamClosed =>
          noMoreData := true;
          return EndOfStream;
        case Data(bytes) => current := bytes;
      }
      r := Got(current[0]);
      delivered := delivered + [current[0]];
      current := current[1..];
    }

    /** Closes once: a last flush, the closing message if that went through, and the end marker. */
    method Close(posted: bool)
      requires Valid()
      modifies this`isClosed, this`buffer, this`peerToRelaySequence, this`chunks, this`outbox, this`incomingDataQueue
      ensures Valid() && State() == if old(isClosed) then old(State()) else Closing(old(State())).0
      ensures outbox == old(outbox) + if old(isClosed) then [] else Farewell(old(State()), posted)
    {
      if !isClosed {
        isClosed := true;
        if sessionId != "" {
          var ok := FlushStream(posted);
          if ok {
            outbox := outbox + [PeerClosing(sessionId)];
          }
        }
        incomingDataQueue := incomingDataQueue + [StreamClosed];
      }
    }
  }

  function PolledAll(p: Peer, replies: seq<Outcome<ServerMessage>>): Peer
    decreases |replies|
  {
    if replies == [] || p.closed then p
    else
      var (p', ok) := Polled(p, replies[0]);
      if ok then PolledAll(p', replies[1..]) else p'
  }
}

/** The server's end of one session: a relay socket on one side, posts from the peer on the other. */
module RelaySession {
  import opened Wrappers
  import opened Bytes
  import opened RelayMessages

  /** `written` and `taken` are all bytes written to and read from the relay socket,
      `pops` all contents taken out of the spill file, oldest first. */
  datatype Session = Session(
    id: string, connected: bool, closed: bool, toRelay: nat, toPeer: nat, tempFile: Option<seq<byte>>,
    written: seq<byte>, taken: seq<byte>, pops: seq<seq<byte>>)

  function Created(id: string): Session {
    Session(id, false, false, 0, 0, None, [], [], [])
  }

  /** The streams exist: they are null before `connect` and after `close`. */
  predicate Streaming(s: Session) {
    s.connected && !s.closed
  }

  function Spill(s: Session): seq<byte> {
    if s.tempFile.Some? then s.tempFile.value else []
  }

  /** The next chunk in sequence is written to the relay socket; when `failAt` is given, the socket
      fails after that many of its bytes, if it has more, and the session closes. */
  function SendData(s: Session, m: PeerMessage, failAt: Option<nat>): (Session, bool) {
    if !Streaming(s) || !m.PeerToRelay? || m.session != s.id || m.sequence != s.toRelay + 1 then (s, false)
    else if m.data == [] then (s, true)
    else if failAt.Some? && failAt.value < |m.data| then (s.(written := s.written + m.data[..failAt.value], closed := true), false)
    else (s.(written := s.written + m.data, toRelay := m.sequence), true)
  }

  /** Asking for the file creates it. */
  function Touch(s: Session): Session {
    s.(tempFile := Some(Spill(s)))
  }

  function Popped(s: Session): Session {
    if Spill(s) == [] then Touch(s).(pops := s.pops + [[]])
    else s.(tempFile := None, pops := s.pops + [Spill(s)])
  }

  function Numbered(s: Session): Session {
    s.(toPeer := s.toPeer + 1)
  }

  function Received(s: Session, bytes: seq<byte>): Session {
    s.(taken := s.taken + bytes, tempFile := Some(Spill(s) + bytes))
  }

  function Closed(s: Session): Session {
    s.(closed := true)
  }

  /** Every byte read from the relay was popped or is still in the spill file. */
  predicate Conserved(s: Session) {
    s.taken == Flatten(s.pops) + Spill(s)
  }

  lemma {:induction false} ReceivedConserves(s: Session, bytes: seq<byte>)
    requires Conserved(s)
    ensures Conserved(Received(s, bytes))
  {
    assert Flatten(s.pops) + Spill(s) + bytes == Flatten(s.pops) + (Spill(s) + bytes);
  }

  lemma {:induction false} PoppedConserves(s: Session)
    requires Conserved(s)
    ensures Conserved(Popped(s))
  {
    FlattenSnoc(s.pops, Spill(s));
    var f := Flatten(s.pops) + Spill(s);
    assert f == f + [];
  }

  /** One read of the reader thread. */
  datatype SocketRead = Bytes(bytes: seq<byte>) | EndOfStream | Failure

  function Reading(s: Session, read: SocketRead): Session {
    match read
    case Bytes(bytes) => if bytes == [] then s else Received(s, bytes)
    case _ => Closed(s)
  }

  function ReadAll(s: Session, results: seq<SocketRead>): Session
    decreases |results|
  {
    if results == [] || s.closed then s else ReadAll(Reading(s, results[0]), results[1..])
  }

  /** What other threads do while a poll waits: the reader appends bytes, or the session closes. */
  datatype Meanwhile = Meanwhile(bytes: seq<byte>, closes: bool)

  function Waited(s: Session, during: Meanwhile): Session {
    var s1 := if during.bytes == [] then s else Received(s, during.bytes);
    if during.closes then Closed(s1) else s1
  }

  /** A whole poll: the session after it and the answer. */
  function Poll(s: Session, during: Meanwhile): (Session, Outcome<ServerMessage>) {
    if !Streaming(s) then (s, Thrown)
    else
      var waited := if Spill(s) == [] then Waited(Touch(s), during) else Touch(s);
      if waited.closed then (waited, Done(ServerClosing))
      else (Numbered(Popped(waited)), Done(RelayToPeer(waited.toPeer + 1, Spill(waited))))
  }

  lemma {:induction false} PollConserves(s: Session, during: Meanwhile)
    requires Conserved(s)
    ensures Conserved(Poll(s, during).0)
    ensures var r := Poll(s, during).1;
            r.Done? && r.value.RelayToPeer? ==> Flatten(s.pops) + r.value.data <= Poll(s, during).0.taken
  {
    if Streaming(s) {
      var waited := if Spill(s) == [] then Waited(Touch(s), during) else Touch(s);
      ReceivedConserves(Touch(s), during.bytes);
      assert Conserved(waited);
      PoppedConserves(waited);
      FlattenSnoc(s.pops, Spill(waited));
    }
  }

  /** A session that has closed takes nothing more and gives nothing more, and keeps what was in its spill file. */
  lemma {:induction false} ClosedRefuses(s: Session, m: PeerMessage, failAt: Option<nat>, during: Meanwhile, results: seq<SocketRead>)
    requires Conserved(s)
    ensures SendData(Closed(s), m, failAt) == (Closed(s), false)
    ensures Poll(Closed(s), during) == (Closed(s), Thrown)
    ensures ReadAll(Closed(s), results) == Closed(s)
    ensures Conserved(Closed(s)) && Spill(Closed(s)) == Spill(s)
  {
    assert ReadAll(Closed(s), results) == Closed(s);
  }

  class RelaySessionConnection {
    const sessionId: string
    var connected: bool
    var isClosed: bool
    var peerToRelaySequence: nat
    var relayToPeerSequence: nat
    var tempFile: Option<seq<byte>>
    var written: seq<byte>
    ghost var taken: seq<byte>
    ghost var pops: seq<seq<byte>>

    constructor (sessionId: string)
      ensures State() == Created(sessionId) && Valid()
    {
      this.sessionId := sessionId;
      connected, isClosed, peerToRelaySequence, relayToPeerSequence, tempFile := false, false, 0, 0, None;
      written, taken, pops := [], [], [];
    }

    ghost function State(): Session
      reads this
    {
      Session(sessionId, connected, isClosed, peerToRelaySequence, relayToPeerSequence, tempFile, written, taken, pops)
    }

    ghost predicate Valid()
      reads this
    {
      Conserved(State())
    }

    method Connect()
      requires Valid()
      modifies this
      ensures Valid() && State() == old(State()).(connected := true)
    {
      connected := true;
    }

    method Send(m: PeerMessage, failAt: Option<nat>) returns (ok: bool)
      requires Valid()
      modifies this
      ensures Valid() && (State(), ok) == SendData(old(State()), m, failAt)
    {
      if !connected || isClosed {
        return false;
      }
      if !m.PeerToRelay? || m.session != sessionId || m.sequence != peerToRelaySequence + 1 {
        return false;
      }
      if m.data != [] {
        if failAt.Some? && failAt.value < |m.data| {
          written := written + m.data[..failAt.value];
          Close();
          return false;
        }
        written := written + m.data;
        peerToRelaySequence := m.sequence;
      }
      ok := true;
    }

    method GetTempFile() returns (content: seq<byte>)
      requires Valid()
      modifies this`tempFile
      ensures Valid() && State() == Touch(old(State())) && content == Spill(State())
    {
      if tempFile.None? {
        tempFile := Some([]);
        assert Flatten(pops) + [] == Flatten(pops);
      }
      content := tempFile.value;
    }

    method HasData() returns (has: bool)
      requires Valid()
      modifies this`tempFile
      ensures Valid() && State() == Touch(old(State())) && has == (Spill(State()) != [])
    {
      var content := GetTempFile();
      has := content != [];
    }

    method PopTempFile() returns (data: seq<byte>)
      requires Valid()
      modifies this`tempFile, this`pops
      ensures Valid() && State() == Popped(old(State())) && data == Spill(old(State()))
    {
      PoppedConserves(State());
      var has := HasData();
      if has {
        data := GetTempFile();
        tempFile := None;
      } else {
        data := [];
      }
      pops := pops + [data];
    }

    method GetData() returns (r: Outcome<ServerMessage>)
      requires Valid()
      modifies this
      ensures Valid()
      ensures old(Streaming(State())) ==>
                State() == Numbered(Popped(old(State()))) && r == Done(RelayToPeer(old(relayToPeerSequence) + 1, old(Spill(State()))))
      ensures !old(Streaming(State())) ==> State() == old(State()) && r == Thrown
    {
      if isClosed || !connected {
        return Thrown;
      }
      var data := PopTempFile();
      relayToPeerSequence := relayToPeerSequence + 1;
      r := Done(RelayToPeer(relayToPeerSequence, data));
    }

    method WaitForDataAndGet(during: Meanwhile) returns (r: Outcome<ServerMessage>)
      requires Valid()
      modifies this
      ensures Valid() && (State(), r) == Poll(old(State()), during)
    {
      if !connected || isClosed {
        return Thrown;
      }
      var has := HasData();
      if !has {
        if during.bytes != [] {
          Append(during.bytes);
        }
        if during.closes {
          Close();
        }
      }
      if isClosed {
        r := Done(ServerClosing);
      } else {
        r := GetData();
      }
    }

    method Append(bytes: seq<byte>)
      requires Valid()
      modifies this`tempFile, this`taken
      ensures Valid() && State() == Received(old(State()), bytes)
    {
      ReceivedConserves(State(), bytes);
      var content := GetTempFile();
      tempFile := Some(content + bytes);
      taken := taken + bytes;
    }

    /** The loop of the reader thread, given what the socket returns to each read. */
    method ReadLoop(results: seq<SocketRead>)
      requires Valid()
      modifies this
      ensures Valid() && State() == ReadAll(old(State()), results)
    {
      var i := 0;
      while i < |results| && !isClosed
        invariant 0 <= i <= |results| && Valid()
        invariant ReadAll(State(), results[i..]) == ReadAll(old(State()), results)
        decreases |results| - i
      {
        assert results[i..][0] == results[i] && results[i..][1..] == results[i + 1..];
        match results[i] {
          case Bytes(bytes) =>
            if bytes != [] {
              Append(bytes);
            }
          case _ => Close();
        }
        i := i + 1;
      }
    }

    method Close()
      requires Valid()
      modifies this`isClosed
      ensures Valid() && State() == Closed(old(State()))
    {
      isClosed := true;
    }
  }
}

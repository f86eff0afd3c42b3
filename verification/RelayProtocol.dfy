/** Peers and relay server together, over a network that loses, repeats and reorders messages:
    what holds in every run of any number of sessions. */
module RelayProtocol {
  import opened Wrappers
  import opened Bytes
  import opened RelayMessages
  import opened RelaySession
  import opened RelayClient

  /** One session. `posts` and `replies` are everything ever sent either way: a message may be delivered late,
      again or never. `handlers` are polls that have emptied the spill file and not yet numbered their reply, and
    `returned` is the number of the last chunk whose flush came back without an exception. `ended` tells whether the end
    marker is in the peer's queue. */
  datatype Link = Link(
    peer: Peer, server: Session, posts: set<PeerMessage>, replies: set<ServerMessage>,
    flushing: Option<nat>, flushed: set<nat>, returned: nat, reading: bool, ended: bool, waiting: bool, pollingEnded: bool,
    polls: nat, begun: nat, handlers: seq<seq<byte>>, numbered: seq<seq<byte>>)

  datatype Action =
    | Open(id: string)                                    // connect, and the session it creates
    | WriteTo(id: string, bytes: seq<byte>)
    | StartFlush(id: string)
    | FlushReturns(id: string)                            // the reply to the post being waited for
    | FlushFails(id: string)
    | ClosePeer(id: string)                               // also while a flush waits for its reply; `close` flushes then
    | SayClosing(id: string)
    | EndInput(id: string)
    | SendPoll(id: string)
    | PollReturns(id: string, reply: ServerMessage)
    | PollFails(id: string)
    | ReadFromStream(id: string)                          // a read begins: it returns or starts to wait
    | AwaitData(id: string)                               // a waiting read looks at the queue again
    | DeliverPost(m: PeerMessage, failAt: Option<nat>)    // data or closing reaches the server
    | BeginPoll(id: string)                               // a poll reaches the server and empties the spill file
    | FinishPoll(id: string, handler: nat)                // the next number is given to what it found
    | RefusePoll(id: string)
    | RelayBytes(id: string, bytes: seq<byte>)
    | CloseServer(id: string)

  function Fresh(id: string): Link {
    Link(Opened(id), Created(id).(connected := true), {}, {}, None, {}, 0, false, false, false, false, 0, 0, [], [])
  }

  function Posted(l: Link, m: Option<PeerMessage>): Link {
    if m.Some? then l.(posts := l.posts + {m.value}) else l
  }

  function RemovedAt<T>(s: seq<T>, i: nat): seq<T>
    requires i < |s|
  {
    s[..i] + s[i + 1..]
  }

  /** What an action does to the session it belongs to; `None` when it cannot happen. */
  function Act(l: Link, a: Action): Option<Link> {
    match a
    case Open(_) => None
    case WriteTo(_, bytes) =>
      if l.flushing.Some? then None
      else
        var r := Write(l.peer, bytes);
        if r.Done? then Some(l.(peer := r.value)) else Some(l)
    case StartFlush(_) =>
      if l.flushing.Some? then None
      else
        var (p, m) := Flush(l.peer);
        Some(Posted(l.(peer := p, flushing := if m.Some? then Some(p.toRelay) else None), m))
    case FlushReturns(_) =>
      if l.flushing.None? || l.flushing.value !in l.flushed then None else Some(l.(flushing := None, returned := l.flushing.value))
    case FlushFails(_) =>
      if l.flushing.None? then None else Some(l.(flushing := None))
    case ClosePeer(_) =>
      if l.peer.closed then None else Some(l.(peer := l.peer.(closed := true)))
    case SayClosing(id) =>
      if !l.peer.closed then None else Some(l.(posts := l.posts + {PeerClosing(id)}))
    case EndInput(_) =>
      if !l.peer.closed || l.ended then None
      else Some(l.(peer := l.peer.(queue := l.peer.queue + [StreamClosed]), ended := true))
    case SendPoll(id) =>
      if l.peer.closed || l.waiting || l.pollingEnded then None
      else Some(l.(waiting := true, polls := l.polls + 1, posts := l.posts + {WaitForData(id)}))
    case PollReturns(_, reply) =>
      if !l.waiting || reply !in l.replies then None
      else
        var (p, ok) := Polled(l.peer, Done(reply));
        Some(l.(peer := p, waiting := false, pollingEnded := !ok))
    case PollFails(_) =>
      if !l.waiting then None else Some(l.(waiting := false, pollingEnded := true))
    case ReadFromStream(_) =>
      if l.reading then None
      else
        var (p, r) := ReadByte(l.peer);
        Some(l.(peer := p, reading := r.Blocked?))
    case AwaitData(_) =>
      if !l.reading then None
      else
        var (p, r) := ReadFrom(l.peer);
        Some(l.(peer := p, reading := r.Blocked?))
    case DeliverPost(m, failAt) =>
      if m !in l.posts then None
      else if m.PeerToRelay? then
        var (s, ok) := SendData(l.server, m, failAt);
        Some(l.(server := s, flushed := if ok then l.flushed + {m.sequence} else l.flushed))
      else if m.PeerClosing? then Some(l.(server := Closed(l.server)))
      else None
    case BeginPoll(id) =>
      if WaitForData(id) !in l.posts || !Streaming(l.server) then None
      else Some(l.(server := Popped(l.server), begun := l.begun + 1, handlers := l.handlers + [Spill(l.server)]))
    case FinishPoll(_, i) =>
      if i >= |l.handlers| then None
      else
        var s := Numbered(l.server);
        Some(l.(server := s, handlers := RemovedAt(l.handlers, i), numbered := l.numbered + [l.handlers[i]],
                replies := l.replies + {RelayToPeer(s.toPeer, l.handlers[i])}))
    case RefusePoll(id) =>
      if WaitForData(id) !in l.posts || Streaming(l.server) then None
      else Some(l.(begun := l.begun + 1, replies := l.replies + {ServerClosing, ErrorMessage}))
    case RelayBytes(_, bytes) =>
      if !Streaming(l.server) then None else Some(l.(server := Received(l.server, bytes)))
    case CloseServer(_) => Some(l.(server := Closed(l.server)))
  }

  function Target(a: Action): Option<string> {
    match a
    case DeliverPost(m, _) =>
      (match m
       case Connect(_) => None
       case PeerToRelay(id, _, _) => Some(id)
       case WaitForData(id) => Some(id)
       case PeerClosing(id) => Some(id))
    case _ => Some(a.id)
  }

  /** All sessions by id: an action belongs to one of them, and a new session gets an unused id. */
  function Step(links: map<string, Link>, a: Action): Option<map<string, Link>> {
    if Target(a).None? then None
    else
      var id := Target(a).value;
      if a.Open? then (if id in links then None else Some(links[id := Fresh(id)]))
      else if id !in links then None
      else
        var l :- Act(links[id], a);
        Some(links[id := l])
  }

  function Run(links: map<string, Link>, actions: seq<Action>): Option<map<string, Link>>
    decreases |actions|
  {
    if actions == [] then Some(links)
    else
      var next :- Step(links, actions[0]);
      Run(next, actions[1..])
  }

  // ----- what every reachable session keeps

  /** The server has written whole chunks in order, and part of one more only if it closed in the middle of it. */
  predicate WrittenInOrder(l: Link) {
    && l.server.toRelay <= |l.peer.chunks|
    && Flatten(l.peer.chunks[..l.server.toRelay]) <= l.server.written
    && var part := l.server.written[|Flatten(l.peer.chunks[..l.server.toRelay])|..];
       part != [] ==> l.server.closed && l.server.toRelay < |l.peer.chunks| && part < l.peer.chunks[l.server.toRelay]
  }

  predicate PostsAreChunks(id: string, l: Link) {
    forall m <- l.posts :: SessionIs(m, id)
      && (m.PeerToRelay? ==> 1 <= m.sequence <= |l.peer.chunks| && m.data == l.peer.chunks[m.sequence - 1])
  }

  predicate SessionIs(m: PeerMessage, id: string) {
    !m.Connect? && m.session == id
  }

  predicate LinkKeeps(id: string, l: Link) {
    && l.peer.session == l.server.id == id
    && Buffered(l.peer)
    && PostsAreChunks(id, l)
    && WrittenInOrder(l)
    && (forall k <- l.flushed :: k <= l.server.toRelay) && l.returned <= l.server.toRelay
    && (l.flushing.Some? ==> l.flushing.value == |l.peer.chunks| && l.peer.buffer == [])
    && Conserved(l.server)
  }

  ghost predicate Keeps(links: map<string, Link>) {
    forall id <- links :: LinkKeeps(id, links[id])
  }

  // ----- towards the relay

  lemma {:induction false} ChunksGrow(l: Link, p: Peer)
    requires WrittenInOrder(l) && l.peer.chunks <= p.chunks
    ensures WrittenInOrder(l.(peer := p))
  {
    assert p.chunks[..l.server.toRelay] == l.peer.chunks[..l.server.toRelay];
  }

  lemma {:induction false} FlushKeeps(id: string, l: Link)
    requires LinkKeeps(id, l) && l.flushing.None?
    ensures var (p, m) := Flush(l.peer);
            LinkKeeps(id, Posted(l.(peer := p), m))
  {
    var (p, m) := Flush(l.peer);
    FlushKeepsBuffered(l.peer);
    ChunksGrow(l, p);
    var l' := Posted(l.(peer := p), m);
    forall x | x in l'.posts
      ensures SessionIs(x, id)
      ensures x.PeerToRelay? ==> 1 <= x.sequence <= |p.chunks| && x.data == p.chunks[x.sequence - 1]
    {
      if x in l.posts {
        assert SessionIs(x, id);
      }
    }
  }

  lemma {:induction false} DeliverKeeps(id: string, l: Link, m: PeerMessage, failAt: Option<nat>)
    requires LinkKeeps(id, l) && m in l.posts && m.PeerToRelay?
    ensures LinkKeeps(id, Act(l, DeliverPost(m, failAt)).value)
  {
    assert SessionIs(m, id);
    var n := l.server.toRelay;
    var (s, ok) := SendData(l.server, m, failAt);
    if s != l.server {
      var chunk := l.peer.chunks[n];
      var before := Flatten(l.peer.chunks[..n]);
      assert l.server.written == before;
      if ok {
        assert l.peer.chunks[..n + 1] == l.peer.chunks[..n] + [chunk];
        FlattenSnoc(l.peer.chunks[..n], chunk);
        assert s.written[|s.written|..] == [];
      } else {
        assert s.written[|before|..] <= chunk;
      }
    }
  }

  /** `p` differs from `q` in nothing that concerns the output. */
  predicate SameOutput(p: Peer, q: Peer) {
    p.session == q.session && p.buffer == q.buffer && p.toRelay == q.toRelay && p.chunks == q.chunks && p.written == q.written
  }

  predicate SameInput(s: Session, t: Session) {
    s.id == t.id && s.toRelay == t.toRelay && s.written == t.written && (t.closed ==> s.closed)
  }

  lemma {:induction false} FrameKeeps(id: string, l: Link, l': Link)
    requires LinkKeeps(id, l)
    requires SameOutput(l'.peer, l.peer) && SameInput(l'.server, l.server) && Conserved(l'.server)
    requires l'.flushed == l.flushed && l.posts <= l'.posts && l'.returned <= l.server.toRelay
    requires l'.flushing.Some? ==> l'.flushing.value == |l'.peer.chunks| && l'.peer.buffer == []
    requires forall m <- l'.posts - l.posts :: SessionIs(m, id) && !m.PeerToRelay?
    ensures LinkKeeps(id, l')
  {
    hide Flatten;
    forall m | m in l'.posts
      ensures SessionIs(m, id)
      ensures m.PeerToRelay? ==> 1 <= m.sequence <= |l'.peer.chunks| && m.data == l'.peer.chunks[m.sequence - 1]
    {
      assert m in l.posts || m in l'.posts - l.posts;
    }
  }

  lemma {:induction false} ReadKeepsOutput(p: Peer)
    ensures SameOutput(ReadFrom(p).0, p)
    decreases |p.queue|
  {
    if p.current == [] && p.queue != [] && p.queue[0].Data? {
      ReadKeepsOutput(p.(queue := p.queue[1..], current := p.queue[0].bytes));
    }
  }

  lemma {:induction false} PolledKeepsOutput(p: Peer, reply: ServerMessage)
    ensures SameOutput(Polled(p, Done(reply)).0, p)
  {
  }

  lemma {:induction false} WriteKeeps(id: string, l: Link, p: Peer)
    requires l.flushing.None? && LinkKeeps(id, l) && Buffered(p) && p.session == id && p.chunks == l.peer.chunks
    ensures LinkKeeps(id, l.(peer := p))
  {
    hide Flatten, Buffered;
  }

  lemma {:induction false} ActKeeps(id: string, l: Link, a: Action)
    requires LinkKeeps(id, l) && Target(a) == Some(id)
    ensures Act(l, a).Some? ==> LinkKeeps(id, Act(l, a).value)
  {
    var r := Act(l, a);
    if r.None? {
      return;
    }
    hide WrittenInOrder, Buffered, Flatten, Conserved, Flush, Spill, Polled, ReadFrom;
    match a
    case WriteTo(_, bytes) =>
      WriteKeepsBuffered(l.peer, bytes);
      WriteKeeps(id, l, r.value.peer);
    case StartFlush(_) => StartFlushKeeps(id, l);
    case ReadFromStream(_) =>
      ReadKeepsOutput(l.peer);
      FrameKeeps(id, l, r.value);
    case AwaitData(_) =>
      ReadKeepsOutput(l.peer);
      FrameKeeps(id, l, r.value);
    case DeliverPost(m, failAt) =>
      if m.PeerToRelay? {
        DeliverKeeps(id, l, m, failAt);
      } else {
        FrameKeeps(id, l, r.value);
      }
    case BeginPoll(_) =>
      PoppedConserves(l.server);
      FrameKeeps(id, l, r.value);
    case PollReturns(_, reply) =>
      PolledKeepsOutput(l.peer, reply);
      FrameKeeps(id, l, r.value);
    case RelayBytes(_, bytes) =>
      ReceivedConserves(l.server, bytes);
      FrameKeeps(id, l, r.value);
    case Open(_) =>
    case _ => FrameKeeps(id, l, r.value);
  }

  lemma {:induction false} StartFlushKeeps(id: string, l: Link)
    requires LinkKeeps(id, l) && Act(l, StartFlush(id)).Some?
    ensures LinkKeeps(id, Act(l, StartFlush(id)).value)
  {
    FlushKeeps(id, l);
    var (p, m) := Flush(l.peer);
    FrameKeeps(id, Posted(l.(peer := p), m), Act(l, StartFlush(id)).value);
  }

  lemma {:induction false} StepKeeps(links: map<string, Link>, a: Action)
    requires Keeps(links)
    ensures Step(links, a).Some? ==> Keeps(Step(links, a).value)
  {
    hide LinkKeeps, Act;
    if Target(a).Some? {
      var id := Target(a).value;
      if a.Open? {
        FreshKeeps(id);
      } else if id in links {
        ActKeeps(id, links[id], a);
      }
    }
  }

  lemma {:induction false} FreshKeeps(id: string)
    ensures LinkKeeps(id, Fresh(id))
  {
  }

  lemma {:induction false} RunKeeps(links: map<string, Link>, actions: seq<Action>)
    requires Keeps(links)
    ensures Run(links, actions).Some? ==> Keeps(Run(links, actions).value)
    decreases |actions|
  {
    hide Keeps, Step;
    if actions != [] {
      StepKeeps(links, actions[0]);
      if Step(links, actions[0]).Some? {
        RunKeeps(Step(links, actions[0]).value, actions[1..]);
      }
    }
  }

  /** Peer to relay: in every reachable state of every session the bytes written to the relay socket are a prefix
      of the bytes written to the client stream, and no byte taken from the relay socket is lost on the server. */
  lemma {:induction false} PeerToRelaySafe(actions: seq<Action>, id: string)
    requires Run(map[], actions).Some? && id in Run(map[], actions).value
    ensures var l := Run(map[], actions).value[id];
            && l.server.written <= l.peer.written
            && l.server.taken == Flatten(l.server.pops) + Spill(l.server)
  {
    RunKeeps(map[], actions);
    var l := Run(map[], actions).value[id];
    assert LinkKeeps(id, l);
    WrittenPrefix(l);
  }

  lemma {:induction false} WrittenPrefix(l: Link)
    requires WrittenInOrder(l) && Buffered(l.peer)
    ensures l.server.written <= l.peer.written
  {
    var n := l.server.toRelay;
    var done := Flatten(l.peer.chunks[..n]);
    var part := l.server.written[|done|..];
    FlattenPrefix(l.peer.chunks, n, part);
    assert l.server.written == done + part;
  }

  /** A flush that finds nothing in the buffer returns at once, whatever became of the chunks before it. */
  predicate EmptyFlush(l: Link) {
    l.flushing.None? && l.peer.buffer == []
  }

  /** When a flush that posted something returns without an exception, everything written so far is on the relay socket.
      When an empty one returns, everything is there exactly if the server has taken all chunks; and it has if the last
      flush that posted returned, whatever happened to those before it. */
  lemma {:induction false} FlushDelivers(actions: seq<Action>, id: string)
    requires Run(map[], actions).Some? && id in Run(map[], actions).value
    ensures var l := Run(map[], actions).value[id];
            && (Act(l, FlushReturns(id)).Some? ==> l.server.written == l.peer.written)
            && (EmptyFlush(l) ==> Act(l, StartFlush(id)) == Some(l)
                                  && (l.server.written == l.peer.written <==> l.server.toRelay == |l.peer.chunks|)
                                  && (l.returned == |l.peer.chunks| ==> l.server.written == l.peer.written))
  {
    RunKeeps(map[], actions);
    var l := Run(map[], actions).value[id];
    assert LinkKeeps(id, l);
    hide Run;
    if EmptyFlush(l) || l.flushing.Some? {
      AllTaken(l);
    }
  }

  /** With nothing in the buffer, the socket has everything exactly if the server has counted all chunks. */
  lemma {:induction false} AllTaken(l: Link)
    requires WrittenInOrder(l) && Buffered(l.peer) && l.peer.buffer == []
    ensures l.server.written == l.peer.written <==> l.server.toRelay == |l.peer.chunks|
  {
    var (chunks, n) := (l.peer.chunks, l.server.toRelay);
    var done := Flatten(chunks[..n]);
    var part := l.server.written[|done|..];
    assert l.server.written == done + part;
    assert chunks == chunks[..n] + chunks[n..];
    FlattenAppend(chunks[..n], chunks[n..]);
    assert l.peer.written == done + Flatten(chunks[n..]);
    if n < |chunks| {
      assert chunks[n..][0] == chunks[n];
      var rest := Flatten(chunks[n..][1..]);
      assert Flatten(chunks[n..]) == chunks[n] + rest;
      assert |part| < |chunks[n]|;
    } else {
      assert chunks[n..] == [];
    }
  }

  /** A flush that failed is not noticed by the next one: it returns, and nothing has been delivered. */
  lemma {:induction false} FailedFlushHides(id: string, bytes: seq<byte>)
    requires bytes != []
    ensures var r := Run(map[], [Open(id), WriteTo(id, bytes), StartFlush(id), FlushFails(id)]);
            && r.Some? && id in r.value && EmptyFlush(r.value[id])
            && r.value[id].server.written == [] && r.value[id].peer.written == bytes
  {
    var actions := [WriteTo(id, bytes), StartFlush(id), FlushFails(id)];
    var all := [Open(id)] + actions;
    assert all == [Open(id), WriteTo(id, bytes), StartFlush(id), FlushFails(id)] && all[1..] == actions;
    assert [] + bytes == bytes;
    var l1 := Act(Fresh(id), actions[0]).value;
    var l2 := Act(l1, actions[1]).value;
    var l3 := Act(l2, actions[2]).value;
    ThreeActs(Fresh(id), actions, l1, l2, l3);
    RunOfOne(id, Fresh(id), actions);
    assert Step(map[], Open(id)) == Some(map[id := Fresh(id)]);
    hide Act, ActAll;
  }

  // ----- towards the peer

  /** Replies carry what was numbered, and the peer has taken in the numbered replies up to its own count. */
  predicate RepliesNumbered(l: Link) {
    && l.server.toPeer == |l.numbered|
    && l.peer.toPeer <= |l.numbered|
    && Arrived(l.peer) == Flatten(l.numbered[..l.peer.toPeer])
    && forall r <- l.replies :: IsNumbered(l, r)
  }

  predicate IsNumbered(l: Link, r: ServerMessage) {
    r.RelayToPeer? ==> 1 <= r.sequence <= |l.numbered| && r.data == l.numbered[r.sequence - 1]
  }

  /** What left the spill file has been numbered or is being handled. */
  predicate AllAccounted(l: Link) {
    multiset(l.server.pops) == multiset(l.numbered) + multiset(l.handlers)
  }

  predicate InputKeeps(l: Link) {
    RepliesNumbered(l) && AllAccounted(l)
  }

  /** The data that has been numbered, and then the data being handled, are the data popped, in the order of the bytes. */
  predicate Straight(l: Link) {
    Flatten(l.server.pops) == Flatten(l.numbered) + Flatten(l.handlers)
  }

  /** What is numbered could as well have been numbered after everything older that is still being handled. */
  predicate Commutes(l: Link, a: Action) {
    a.FinishPoll? && a.handler < |l.handlers| ==>
      var (older, found) := (Flatten(l.handlers[..a.handler]), l.handlers[a.handler]);
      older + found == found + older
  }

  predicate SameArrived(p: Peer, q: Peer) {
    Arrived(p) == Arrived(q) && p.toPeer == q.toPeer
  }

  lemma {:induction false} FrameInput(l: Link, l': Link)
    requires InputKeeps(l) && SameArrived(l'.peer, l.peer)
    requires l'.server.toPeer == l.server.toPeer && l'.server.pops == l.server.pops
    requires l'.numbered == l.numbered && l'.handlers == l.handlers
    requires forall r <- l'.replies - l.replies :: !r.RelayToPeer?
    ensures InputKeeps(l')
  {
    hide Flatten, Arrived;
    forall r | r in l'.replies ensures IsNumbered(l', r) {
      assert r in l.replies || r in l'.replies - l.replies;
      assert r in l.replies ==> IsNumbered(l, r);
    }
  }

  lemma {:induction false} PollReturnsKeeps(l: Link, id: string, reply: ServerMessage)
    requires InputKeeps(l) && Act(l, PollReturns(id, reply)).Some?
    ensures InputKeeps(Act(l, PollReturns(id, reply)).value)
  {
    assert IsNumbered(l, reply);
    PolledArrives(l.peer, Done(reply));
    hide InputKeeps, Arrived, Polled;
    TakenIn(l, Act(l, PollReturns(id, reply)).value, reply);
  }

  lemma {:induction false} TakenIn(l: Link, l': Link, reply: ServerMessage)
    requires InputKeeps(l) && IsNumbered(l, reply)
    requires l'.server == l.server && l'.numbered == l.numbered && l'.handlers == l.handlers && l'.replies == l.replies
    requires l'.peer == l.peer || (reply.RelayToPeer? && reply.sequence == l.peer.toPeer + 1 == l'.peer.toPeer
                                   && Arrived(l'.peer) == Arrived(l.peer) + reply.data)
    ensures InputKeeps(l')
  {
    hide Flatten, Arrived;
    var n := l.peer.toPeer;
    if l'.peer != l.peer {
      assert l.numbered[..n + 1] == l.numbered[..n] + [l.numbered[n]];
      FlattenSnoc(l.numbered[..n], l.numbered[n]);
    }
    forall r | r in l'.replies ensures IsNumbered(l', r) {
      assert IsNumbered(l, r);
    }
  }

  lemma {:induction false} FinishPollKeeps(l: Link, id: string, i: nat)
    requires InputKeeps(l) && Act(l, FinishPoll(id, i)).Some?
    ensures InputKeeps(Act(l, FinishPoll(id, i)).value)
  {
    hide Flatten, Arrived;
    var l' := Act(l, FinishPoll(id, i)).value;
    assert l.handlers == l.handlers[..i] + [l.handlers[i]] + l.handlers[i + 1..];
    assert multiset(l.handlers) == multiset(l'.handlers) + multiset{l.handlers[i]};
    assert l'.numbered[..l.peer.toPeer] == l.numbered[..l.peer.toPeer];
    forall r | r in l'.replies ensures IsNumbered(l', r) {
      assert r in l.replies ==> IsNumbered(l, r);
    }
  }

  lemma {:induction false} BeginPollKeeps(l: Link, id: string)
    requires InputKeeps(l) && Act(l, BeginPoll(id)).Some?
    ensures InputKeeps(Act(l, BeginPoll(id)).value)
  {
    hide Flatten, Arrived;
    var l' := Act(l, BeginPoll(id)).value;
    assert l'.server.pops == l.server.pops + [Spill(l.server)];
    forall r | r in l'.replies ensures IsNumbered(l', r) {
      assert IsNumbered(l, r);
    }
  }

  /** Actions that change what arrives at the peer, or how it is numbered. */
  predicate MovesInput(a: Action) {
    a.EndInput? || a.PollReturns? || a.ReadFromStream? || a.AwaitData? || a.BeginPoll? || a.FinishPoll?
  }

  lemma {:induction false} MoveKeepsInput(id: string, l: Link, a: Action)
    requires InputKeeps(l) && Target(a) == Some(id) && MovesInput(a) && Act(l, a).Some?
    ensures InputKeeps(Act(l, a).value)
  {
    match a
    case EndInput(_) =>
      QueueSnoc(l.peer.queue, StreamClosed);
      assert Arrived(l.peer) + [] == Arrived(l.peer);
      assert Arrived(l.peer.(queue := l.peer.queue + [StreamClosed])) == Arrived(l.peer);
      hide InputKeeps, Arrived;
      FrameInput(l, Act(l, a).value);
    case PollReturns(_, reply) => PollReturnsKeeps(l, id, reply);
    case ReadFromStream(_) =>
      ReadKeepsArrived(l.peer);
      ReadKeepsCount(l.peer);
      hide InputKeeps, Arrived, ReadFrom;
      FrameInput(l, Act(l, a).value);
    case AwaitData(_) =>
      ReadKeepsArrived(l.peer);
      ReadKeepsCount(l.peer);
      hide InputKeeps, Arrived, ReadFrom;
      FrameInput(l, Act(l, a).value);
    case BeginPoll(_) => BeginPollKeeps(l, id);
    case FinishPoll(_, i) => FinishPollKeeps(l, id, i);
  }

  lemma {:induction false} ActKeepsInput(id: string, l: Link, a: Action)
    requires InputKeeps(l) && Target(a) == Some(id)
    ensures Act(l, a).Some? ==> InputKeeps(Act(l, a).value)
  {
    var r := Act(l, a);
    if r.None? {
      return;
    }
    if MovesInput(a) {
      MoveKeepsInput(id, l, a);
    } else {
      hide InputKeeps, Arrived, ReadFrom, ReadByte, Popped, SendData, Polled;
      OtherInputs(l, a);
      FrameInput(l, r.value);
    }
  }

  lemma {:induction false} OtherInputs(l: Link, a: Action)
    requires Act(l, a).Some? && !MovesInput(a)
    ensures var l' := Act(l, a).value;
            && SameArrived(l'.peer, l.peer)
            && l'.server.toPeer == l.server.toPeer && l'.server.pops == l.server.pops
            && l'.numbered == l.numbered && l'.handlers == l.handlers
            && forall r <- l'.replies - l.replies :: !r.RelayToPeer?
  {
    hide ReadFrom, ReadByte, Popped, Polled, Flush, SendData, Write, Arrived, SameArrived;
    if a.DeliverPost? {
      SendingKeepsInput(l.server, a.m, a.failAt);
    }
    if a.StartFlush? {
      FlushKeepsInput(l.peer);
    }
    if a.WriteTo? {
      WriteKeepsInput(l.peer, a.bytes);
    }
    SameInputs(l.peer, Act(l, a).value.peer);
  }

  lemma {:induction false} FlushKeepsInput(p: Peer)
    ensures InputOf(Flush(p).0) == InputOf(p)
  {
  }

  lemma {:induction false} WriteKeepsInput(p: Peer, bytes: seq<byte>)
    ensures Write(p, bytes).Done? ==> InputOf(Write(p, bytes).value) == InputOf(p)
  {
  }

  function InputOf(p: Peer): (seq<byte>, seq<byte>, seq<Item>, nat) {
    (p.delivered, p.current, p.queue, p.toPeer)
  }

  lemma {:induction false} SameInputs(p: Peer, q: Peer)
    requires InputOf(p) == InputOf(q)
    ensures SameArrived(q, p)
  {
  }

  lemma {:induction false} ReadKeepsCount(p: Peer)
    ensures ReadByte(p).0.toPeer == p.toPeer && ReadFrom(p).0.toPeer == p.toPeer
    decreases |p.queue|
  {
    if p.current == [] && p.queue != [] && p.queue[0].Data? {
      ReadKeepsCount(p.(queue := p.queue[1..], current := p.queue[0].bytes));
    }
  }

  ghost predicate AllInput(links: map<string, Link>) {
    forall id <- links :: InputKeeps(links[id])
  }

  lemma {:induction false} StepKeepsInput(links: map<string, Link>, a: Action)
    requires AllInput(links)
    ensures Step(links, a).Some? ==> AllInput(Step(links, a).value)
  {
    hide InputKeeps, Act;
    if Target(a).Some? {
      var id := Target(a).value;
      if a.Open? {
        FreshInput(id);
      } else if id in links {
        ActKeepsInput(id, links[id], a);
      }
    }
  }

  lemma {:induction false} FreshInput(id: string)
    ensures InputKeeps(Fresh(id))
  {
  }

  lemma {:induction false} RunKeepsInput(links: map<string, Link>, actions: seq<Action>)
    requires AllInput(links)
    ensures Run(links, actions).Some? ==> AllInput(Run(links, actions).value)
    decreases |actions|
  {
    hide AllInput, Step;
    if actions != [] {
      StepKeepsInput(links, actions[0]);
      if Step(links, actions[0]).Some? {
        RunKeepsInput(Step(links, actions[0]).value, actions[1..]);
      }
    }
  }

  /** In every reachable state what `read` has returned is a prefix of what has arrived, that is the numbered data up to
      the peer's own count; and everything popped has been numbered once or is being handled. */
  lemma {:induction false} ReadsWhatIsNumbered(actions: seq<Action>, id: string)
    requires Run(map[], actions).Some? && id in Run(map[], actions).value
    ensures var l := Run(map[], actions).value[id];
            && l.peer.toPeer <= |l.numbered|
            && l.peer.delivered <= Arrived(l.peer) == Flatten(l.numbered[..l.peer.toPeer])
            && multiset(l.server.pops) == multiset(l.numbered) + multiset(l.handlers)
            && (Straight(l) ==> Arrived(l.peer) <= Flatten(l.numbered) <= l.server.taken)
  {
    RunKeepsInput(map[], actions);
    RunKeeps(map[], actions);
    var l := Run(map[], actions).value[id];
    assert LinkKeeps(id, l) && InputKeeps(l);
    FlattenPrefix(l.numbered, l.peer.toPeer, []);
    assert Arrived(l.peer) + [] == Arrived(l.peer);
  }

  // ----- the order in which polls are numbered

  lemma {:induction false} HandlersSplit(handlers: seq<seq<byte>>, i: nat)
    requires i < |handlers|
    ensures var (older, found, newer) := (Flatten(handlers[..i]), handlers[i], Flatten(handlers[i + 1..]));
            && Flatten(handlers) == older + found + newer
            && Flatten(RemovedAt(handlers, i)) == older + newer
  {
    assert handlers == handlers[..i] + [handlers[i]] + handlers[i + 1..];
    FlattenSnoc(handlers[..i], handlers[i]);
    FlattenAppend(handlers[..i] + [handlers[i]], handlers[i + 1..]);
    FlattenAppend(handlers[..i], handlers[i + 1..]);
  }

  /** Whichever poll is numbered next, while the order has been right so far: what has been numbered is still a prefix of
      what was taken exactly if the data found begin what the older polls found and they; and the order stays right for
      whatever follows exactly if the two can be exchanged, so always when the poll is the oldest or one of both found
      nothing. */
  lemma {:induction false} FinishExactly(l: Link, id: string, i: nat)
    requires Straight(l) && Conserved(l.server) && i < |l.handlers|
    ensures var l' := Act(l, FinishPoll(id, i)).value;
            var (older, found) := (Flatten(l.handlers[..i]), l.handlers[i]);
            && Act(l, FinishPoll(id, i)).Some?
            && (Straight(l') <==> older + found == found + older)
            && (Flatten(l'.numbered) <= l'.server.taken <==> found <= older + found)
            && (i == 0 || older == [] || found == [] ==> Straight(l'))
  {
    var l' := Act(l, FinishPoll(id, i)).value;
    HandlersSplit(l.handlers, i);
    FlattenSnoc(l.numbered, l.handlers[i]);
    Exchange(Flatten(l.numbered), Flatten(l.handlers[..i]), l.handlers[i], Flatten(l.handlers[i + 1..]), Spill(l.server));
    assert i == 0 ==> Flatten(l.handlers[..i]) == [];
    hide Flatten;
  }

  lemma {:induction false} Exchange(before: seq<byte>, older: seq<byte>, found: seq<byte>, newer: seq<byte>, spill: seq<byte>)
    ensures before + (older + found + newer) == before + found + (older + newer) <==> older + found == found + older
    ensures before + found <= before + (older + found + newer) + spill <==> found <= older + found
    ensures older == [] || found == [] ==> older + found == found + older
  {
    assert before + found + (older + newer) == before + (found + older + newer);
    assert before + (older + found + newer) + spill == before + (older + found + (newer + spill));
    Cancels(before, older + found, found + older, newer);
    PrefixOfJoin(before, found, older + found, newer + spill);
  }

  lemma {:induction false} Cancels(a: seq<byte>, x: seq<byte>, y: seq<byte>, c: seq<byte>)
    requires |x| == |y|
    ensures a + (x + c) == a + (y + c) <==> x == y
  {
    assert x == (a + (x + c))[|a|..|a| + |x|] && y == (a + (y + c))[|a|..|a| + |y|];
  }

  lemma {:induction false} PrefixOfJoin(a: seq<byte>, x: seq<byte>, y: seq<byte>, c: seq<byte>)
    requires |x| <= |y|
    ensures a + x <= a + (y + c) <==> x <= y
  {
    if a + x <= a + (y + c) {
      assert x == (a + x)[|a|..] == (a + (y + c))[|a|..|a| + |x|] == y[..|x|];
    }
    if x <= y {
      assert a + (y + c) == a + x + (y[|x|..] + c);
    }
  }

  lemma {:induction false} ActStraight(id: string, l: Link, a: Action)
    requires Straight(l) && Conserved(l.server) && Target(a) == Some(id) && Commutes(l, a)
    ensures Act(l, a).Some? ==> Straight(Act(l, a).value)
  {
    if Act(l, a).Some? {
      match a
      case FinishPoll(_, i) => FinishExactly(l, id, i);
      case BeginPoll(_) =>
        FlattenSnoc(l.server.pops, Spill(l.server));
        FlattenSnoc(l.handlers, Spill(l.server));
        hide Flatten, Conserved;
        assert Act(l, a).value.server.pops == l.server.pops + [Spill(l.server)];
        assert Flatten(l.numbered) + Flatten(l.handlers) + Spill(l.server) == Flatten(l.numbered) + (Flatten(l.handlers) + Spill(l.server));
      case _ => OtherOrder(l, a);
    }
  }

  lemma {:induction false} OtherOrder(l: Link, a: Action)
    requires Act(l, a).Some? && !a.FinishPoll? && !a.BeginPoll?
    ensures var l' := Act(l, a).value;
            l'.server.pops == l.server.pops && l'.numbered == l.numbered && l'.handlers == l.handlers
  {
    hide ReadFrom, ReadByte, Polled, Flush, Spill, SendData, Write;
    if a.DeliverPost? {
      SendingKeepsInput(l.server, a.m, a.failAt);
    }
  }

  lemma {:induction false} SendingKeepsInput(s: Session, m: PeerMessage, failAt: Option<nat>)
    ensures var s' := SendData(s, m, failAt).0; s'.toPeer == s.toPeer && s'.pops == s.pops
  {
  }

  ghost predicate AllStraight(links: map<string, Link>) {
    forall id <- links :: Straight(links[id])
  }

  /** In every step of the run what is numbered can be exchanged with the older data still being handled. */
  ghost predicate AlwaysCommutes(links: map<string, Link>, actions: seq<Action>)
    decreases |actions|
  {
    actions != [] ==>
      && (Target(actions[0]).Some? && Target(actions[0]).value in links ==> Commutes(links[Target(actions[0]).value], actions[0]))
      && (Step(links, actions[0]).Some? ==> AlwaysCommutes(Step(links, actions[0]).value, actions[1..]))
  }

  lemma {:induction false} StepStraight(links: map<string, Link>, a: Action)
    requires AllStraight(links) && Keeps(links)
    requires Target(a).Some? && Target(a).value in links ==> Commutes(links[Target(a).value], a)
    ensures Step(links, a).Some? ==> AllStraight(Step(links, a).value)
  {
    hide Act, Commutes, Straight;
    if Target(a).Some? {
      var id := Target(a).value;
      if a.Open? {
        FreshStraight(id);
      } else if id in links {
        assert LinkKeeps(id, links[id]);
        ActStraight(id, links[id], a);
      }
    }
  }

  lemma {:induction false} FreshStraight(id: string)
    ensures Straight(Fresh(id))
  {
  }

  lemma {:induction false} RunStraight(links: map<string, Link>, actions: seq<Action>)
    requires AllStraight(links) && Keeps(links) && AlwaysCommutes(links, actions)
    ensures Run(links, actions).Some? ==> AllStraight(Run(links, actions).value)
    decreases |actions|
  {
    hide AllStraight, Keeps, Step, Commutes;
    if actions != [] && Step(links, actions[0]).Some? {
      StepKeeps(links, actions[0]);
      StepStraight(links, actions[0]);
      RunStraight(Step(links, actions[0]).value, actions[1..]);
    }
  }

  /** Relay to peer: in every run in which what is numbered can be exchanged with the older data still being handled, the
      bytes that `read` returned are a prefix of the bytes taken from the relay socket. */
  lemma {:induction false} RelayToPeerSafe(actions: seq<Action>, id: string)
    requires AlwaysCommutes(map[], actions)
    requires Run(map[], actions).Some? && id in Run(map[], actions).value
    ensures var l := Run(map[], actions).value[id];
            l.peer.delivered <= Arrived(l.peer) <= l.server.taken
  {
    RunStraight(map[], actions);
    ReadsWhatIsNumbered(actions, id);
    hide AlwaysCommutes;
  }

  /** And the condition is exact: the first poll in a run that is numbered out of turn and cannot be exchanged puts the
      bytes out of order, and what it puts out of order is read as soon as its reply comes back, if what is numbered is no
      prefix of what was taken. */
  lemma {:induction false} OutOfTurn(actions: seq<Action>, id: string, i: nat)
    requires AlwaysCommutes(map[], actions) && Run(map[], actions).Some? && id in Run(map[], actions).value
    requires i < |Run(map[], actions).value[id].handlers|
    ensures var l := Run(map[], actions).value[id];
            var l' := Act(l, FinishPoll(id, i)).value;
            var (older, found) := (Flatten(l.handlers[..i]), l.handlers[i]);
            && Act(l, FinishPoll(id, i)).Some?
            && (Straight(l') <==> older + found == found + older)
            && (l.peer.toPeer == |l.numbered| && l.waiting && !l.peer.closed ==>
                  var reply := RelayToPeer(l'.server.toPeer, found);
                  && Act(l', PollReturns(id, reply)).Some?
                  && (Arrived(Act(l', PollReturns(id, reply)).value.peer) <= l.server.taken <==> found <= older + found))
  {
    RunStraight(map[], actions);
    RunKeepsInput(map[], actions);
    RunKeeps(map[], actions);
    var l := Run(map[], actions).value[id];
    assert LinkKeeps(id, l) && InputKeeps(l) && Straight(l);
    FinishExactly(l, id, i);
    hide *;
    if l.peer.toPeer == |l.numbered| && l.waiting && !l.peer.closed {
      NumberedIsRead(l, id, i);
      FinishServer(l, id, i);
    }
  }

  lemma {:induction false} FinishServer(l: Link, id: string, i: nat)
    requires i < |l.handlers|
    ensures Act(l, FinishPoll(id, i)).value.server.taken == l.server.taken
  {
  }

  lemma {:induction false} NumberedIsRead(l: Link, id: string, i: nat)
    requires InputKeeps(l) && i < |l.handlers| && l.peer.toPeer == |l.numbered| && l.waiting && !l.peer.closed
    ensures var l' := Act(l, FinishPoll(id, i)).value;
            var reply := RelayToPeer(l'.server.toPeer, l.handlers[i]);
            && Act(l', PollReturns(id, reply)).Some?
            && Arrived(Act(l', PollReturns(id, reply)).value.peer) == Flatten(l'.numbered)
  {
    var l' := Act(l, FinishPoll(id, i)).value;
    var reply := RelayToPeer(l'.server.toPeer, l.handlers[i]);
    PolledArrives(l'.peer, Done(reply));
    FlattenSnoc(l.numbered, l.handlers[i]);
    assert l.numbered[..|l.numbered|] == l.numbered;
    hide Arrived, Flatten;
  }

  // ----- polls that the network does not repeat

  /** The peer sends a poll only after the one before has come back, so a poll that is handled once is handled alone. */
  predicate PollsCounted(l: Link) {
    && |l.numbered| == l.server.toPeer
    && l.peer.toPeer <= l.server.toPeer
    && (forall r <- l.replies :: r.RelayToPeer? ==> r.sequence <= l.server.toPeer)
    && l.polls <= l.peer.toPeer + (if l.waiting || l.pollingEnded then 1 else 0)
    && l.server.toPeer + |l.handlers| <= l.begun
  }

  ghost predicate AllCounted(links: map<string, Link>) {
    forall id <- links :: PollsCounted(links[id])
  }

  /** No poll has reached the server more often than it was sent. */
  ghost predicate NoneRepeated(links: map<string, Link>) {
    forall id <- links :: links[id].begun <= links[id].polls
  }

  ghost predicate NeverRepeats(links: map<string, Link>, actions: seq<Action>)
    decreases |actions|
  {
    NoneRepeated(links)
    && (actions != [] && Step(links, actions[0]).Some? ==> NeverRepeats(Step(links, actions[0]).value, actions[1..]))
  }

  /** Actions that send, handle or take in a poll. */
  predicate MovesPolls(a: Action) {
    a.SendPoll? || a.PollReturns? || a.PollFails? || a.BeginPoll? || a.FinishPoll? || a.RefusePoll?
  }

  lemma {:induction false} ActCounts(id: string, l: Link, a: Action)
    requires PollsCounted(l) && Target(a) == Some(id)
    ensures Act(l, a).Some? ==> PollsCounted(Act(l, a).value)
  {
    if Act(l, a).Some? {
      if MovesPolls(a) {
        PoppedKeepsCount(l.server);
        hide Popped, Spill;
      } else {
        OtherCounts(l, a);
        hide Act;
      }
    }
  }

  lemma {:induction false} OtherCounts(l: Link, a: Action)
    requires Act(l, a).Some? && !MovesPolls(a)
    ensures var l' := Act(l, a).value;
            && l'.polls == l.polls && l'.begun == l.begun && l'.waiting == l.waiting && l'.pollingEnded == l.pollingEnded
            && l'.numbered == l.numbered && l'.handlers == l.handlers && l'.replies == l.replies
            && l'.peer.toPeer == l.peer.toPeer && l'.server.toPeer == l.server.toPeer
  {
    ReadKeepsCount(l.peer);
    FlushKeepsCount(l.peer);
    hide ReadFrom, ReadByte, Flush, SendData, Write;
    if a.WriteTo? {
      WriteKeepsInput(l.peer, a.bytes);
    }
    if a.DeliverPost? {
      SendingKeepsInput(l.server, a.m, a.failAt);
    }
  }

  lemma {:induction false} PoppedKeepsCount(s: Session)
    ensures Popped(s).toPeer == s.toPeer
  {
  }

  lemma {:induction false} FlushKeepsCount(p: Peer)
    ensures Flush(p).0.toPeer == p.toPeer
  {
  }

  lemma {:induction false} StepCounts(links: map<string, Link>, a: Action)
    requires AllCounted(links)
    ensures Step(links, a).Some? ==> AllCounted(Step(links, a).value)
  {
    hide Act;
    if Target(a).Some? && Target(a).value in links && !a.Open? {
      ActCounts(Target(a).value, links[Target(a).value], a);
    }
  }

  /** At most one poll is being handled, so the numbered one is the oldest. */
  lemma {:induction false} HandledAlone(links: map<string, Link>, a: Action)
    requires AllCounted(links) && NoneRepeated(links) && Step(links, a).Some?
    ensures a.FinishPoll? ==> a.handler == 0
    ensures Target(a).Some? && Target(a).value in links ==> Commutes(links[Target(a).value], a)
  {
    if a.FinishPoll? {
      var l := links[a.id];
      assert PollsCounted(l) && l.begun <= l.polls;
      assert l.handlers[..0] == [] && [] + l.handlers[0] == l.handlers[0] == l.handlers[0] + [];
    }
  }

  lemma {:induction false} UnrepeatedRun(links: map<string, Link>, actions: seq<Action>)
    requires AllCounted(links) && NeverRepeats(links, actions) && Run(links, actions).Some?
    ensures AlwaysCommutes(links, actions)
    decreases |actions|
  {
    hide AllCounted, Step, NoneRepeated, Commutes;
    if actions != [] {
      HandledAlone(links, actions[0]);
      StepCounts(links, actions[0]);
      UnrepeatedRun(Step(links, actions[0]).value, actions[1..]);
    }
  }

  /** Over a network that loses and delays polls and replies, and may repeat replies, but handles no poll twice,
      nothing else has to be asked for. */
  lemma {:induction false} UnrepeatedPollsSafe(actions: seq<Action>, id: string)
    requires NeverRepeats(map[], actions)
    requires Run(map[], actions).Some? && id in Run(map[], actions).value
    ensures var l := Run(map[], actions).value[id];
            l.peer.delivered <= Arrived(l.peer) <= l.server.taken
  {
    UnrepeatedRun(map[], actions);
    RelayToPeerSafe(actions, id);
    hide AlwaysCommutes;
  }

  /** The run of a single session. */
  function ActAll(l: Link, actions: seq<Action>): Option<Link>
    decreases |actions|
  {
    if actions == [] then Some(l)
    else
      var l' :- Act(l, actions[0]);
      ActAll(l', actions[1..])
  }

  lemma {:induction false} RunOfOne(id: string, l: Link, actions: seq<Action>)
    requires forall a <- actions :: Target(a) == Some(id) && !a.Open?
    ensures var r := ActAll(l, actions);
            Run(map[id := l], actions) == if r.Some? then Some(map[id := r.value]) else None
    decreases |actions|
  {
    hide Act;
    if actions != [] && Act(l, actions[0]).Some? {
      var next := Act(l, actions[0]).value;
      assert map[id := l][id := next] == map[id := next];
      RunOfOne(id, next, actions[1..]);
    }
  }

  lemma {:induction false} ActAllBoth(l: Link, x: seq<Action>, y: seq<Action>)
    ensures ActAll(l, x + y) == (var r := ActAll(l, x); if r.Some? then ActAll(r.value, y) else None)
    decreases |x|
  {
    hide Act;
    if x == [] {
      assert x + y == y;
    } else {
      assert (x + y)[1..] == x[1..] + y;
      var r := Act(l, x[0]);
      if r.Some? {
        ActAllBoth(r.value, x[1..], y);
      }
    }
  }

  /** Two overlapping polls find `a` and `b` ... */
  function Overlap(id: string, a: seq<byte>, b: seq<byte>): seq<Action> {
    [SendPoll(id), RelayBytes(id, a), BeginPoll(id), RelayBytes(id, b), BeginPoll(id)]
  }

  /** ... and the second is numbered first. */
  function Overlapping(id: string, a: seq<byte>, b: seq<byte>): seq<Action> {
    Overlap(id, a, b) + [FinishPoll(id, 1), PollReturns(id, RelayToPeer(1, b)), ReadFromStream(id)]
  }

  lemma {:induction false} ReadsFirst(p: Peer, b: seq<byte>)
    requires !p.closed && !p.noMoreData && p.current == [] && p.queue == [Data(b)] && b != []
    ensures ReadByte(p).0.delivered == p.delivered + [b[0]]
  {
    var next := p.(queue := [], current := b);
    assert [Data(b)][1..] == [];
    assert ReadFrom(p) == ReadFrom(next);
  }

  lemma {:induction false} OverlapRuns(id: string, a: seq<byte>, b: seq<byte>)
    requires a != [] && b != []
    ensures var r := ActAll(Fresh(id), Overlap(id, a, b));
            && r.Some? && r.value.peer == Opened(id) && r.value.waiting && !r.value.reading && r.value.handlers == [a, b]
            && r.value.server.taken == a + b && r.value.server.toPeer == 0
  {
    var actions := Overlap(id, a, b);
    var l1 := Act(Fresh(id), actions[0]).value;
    var l2 := Act(l1, actions[1]).value;
    assert [] + a == a;
    assert l2.server.tempFile == Some(a) && l2.server.taken == a;
    var l3 := Act(l2, actions[2]).value;
    var l4 := Act(l3, actions[3]).value;
    assert [] + b == b;
    var l5 := Act(l4, actions[4]).value;
    hide Act;
    assert ActAll(l5, actions[5..]) == Some(l5);
    assert actions[4..][1..] == actions[5..] && ActAll(l4, actions[4..]) == Some(l5);
    assert actions[3..][1..] == actions[4..] && ActAll(l3, actions[3..]) == Some(l5);
    assert actions[2..][1..] == actions[3..] && ActAll(l2, actions[2..]) == Some(l5);
    assert actions[1..][1..] == actions[2..] && ActAll(l1, actions[1..]) == Some(l5);
  }

  lemma {:induction false} OverlappingRuns(id: string, a: seq<byte>, b: seq<byte>)
    requires a != [] && b != []
    ensures var r := ActAll(Fresh(id), Overlapping(id, a, b));
            r.Some? && r.value.server.taken == a + b && r.value.peer.delivered == b[..1]
  {
    OverlapRuns(id, a, b);
    var l5 := ActAll(Fresh(id), Overlap(id, a, b)).value;
    var rest := [FinishPoll(id, 1), PollReturns(id, RelayToPeer(1, b)), ReadFromStream(id)];
    ActAllBoth(Fresh(id), Overlap(id, a, b), rest);
    hide ActAll;
    var l6 := Act(l5, rest[0]).value;
    var l7 := Act(l6, rest[1]).value;
    assert l7.peer.queue == [Data(b)];
    var l8 := Act(l7, rest[2]).value;
    ReadsFirst(l7.peer, b);
    assert b[..1] == [] + [b[0]];
    ThreeActs(l5, rest, l6, l7, l8);
  }

  lemma {:induction false} ThreeActs(l: Link, acts: seq<Action>, l1: Link, l2: Link, l3: Link)
    requires |acts| == 3 && Act(l, acts[0]) == Some(l1) && Act(l1, acts[1]) == Some(l2) && Act(l2, acts[2]) == Some(l3)
    ensures ActAll(l, acts) == Some(l3)
  {
    hide Act;
    assert ActAll(l2, acts[2..]) == Some(l3);
    assert ActAll(l1, acts[1..]) == Some(l3);
  }

  /** A poll that is repeated while it is still being handled can reverse the stream, because the spill file is
      emptied under a lock that the numbering does not share: whatever two pieces the polls find, the run is safe
      only if they begin alike. */
  lemma {:induction false} RepeatedPollReverses(id: string, a: seq<byte>, b: seq<byte>)
    requires a != [] && b != []
    ensures var r := Run(map[], [Open(id)] + Overlapping(id, a, b));
            && r.Some? && id in r.value
            && (r.value[id].peer.delivered <= r.value[id].server.taken <==> a[0] == b[0])
  {
    OverlappingRuns(id, a, b);
    var actions := [Open(id)] + Overlapping(id, a, b);
    assert actions[1..] == Overlapping(id, a, b);
    RunOfOne(id, Fresh(id), Overlapping(id, a, b));
    var l := ActAll(Fresh(id), Overlapping(id, a, b)).value;
    assert Step(map[], Open(id)) == Some(map[id := Fresh(id)]);
    assert b[..1] == [b[0]];
    assert l.server.taken[0] == a[0];
  }
}

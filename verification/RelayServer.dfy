/** The relay server: the sessions by id, and the dispatch of what peers post. */
module RelayServer {
  import opened Wrappers
  import opened RelayMessages
  import opened RelaySession

  /** What the world contributes to one request: the id a new session gets (`None` when the relay cannot be
      reached), whether its socket gives its streams, its role, a failing socket, and what happens while a poll waits. */
  datatype Chance = Chance(newId: Option<string>, connects: bool, isServerSocket: bool, failAt: Option<nat>, during: Meanwhile)

  /** The reply to one message. An exception becomes an error message, and a session that has closed is dropped. A new
      session is in the map before it is connected, and stays there if that fails. */
  function Handle(sessions: map<string, Session>, m: PeerMessage, chance: Chance): (map<string, Session>, ServerMessage)
  {
    match m
    case Connect(deviceId) =>
      if deviceId == "" || chance.newId.None? then (sessions, ErrorMessage)
      else
        var id := chance.newId.value;
        if !chance.connects then (sessions[id := Created(id)], ErrorMessage)
        else (sessions[id := Created(id).(connected := true)], PeerConnected(id, chance.isServerSocket))
    case PeerToRelay(id, _, _) =>
      if id == "" || id !in sessions then (sessions, ErrorMessage)
      else
        var (s, ok) := SendData(sessions[id], m, chance.failAt);
        (Kept(sessions, id, s), if ok then DataAccepted else ErrorMessage)
    case WaitForData(id) =>
      if id == "" || id !in sessions then (sessions, ErrorMessage)
      else
        var (s, r) := Poll(sessions[id], chance.during);
        (Kept(sessions, id, s), if r.Done? then r.value else ErrorMessage)
    case PeerClosing(id) =>
      if id == "" || id !in sessions then (sessions, ErrorMessage)
      else (Kept(sessions, id, Closed(sessions[id])), ServerClosing)
  }

  function Kept(sessions: map<string, Session>, id: string, s: Session): map<string, Session> {
    if s.closed then sessions - {id} else sessions[id := s]
  }

  lemma {:induction false} KeptTwice(sessions: map<string, Session>, id: string, s: Session)
    requires id in sessions
    ensures Kept(sessions[id := s], id, s) == Kept(sessions, id, s)
  {
    assert sessions[id := s] - {id} == sessions - {id};
  }

  function SessionOf(m: PeerMessage): Option<string> {
    match m
    case Connect(_) => None
    case PeerToRelay(id, _, _) => Some(id)
    case WaitForData(id) => Some(id)
    case PeerClosing(id) => Some(id)
  }

  /** A message touches no session but its own, and the server never loses a byte taken from a relay socket. */
  lemma {:induction false} HandlesOwnSession(sessions: map<string, Session>, m: PeerMessage, chance: Chance, other: string)
    requires chance.newId.Some? ==> chance.newId.value !in sessions
    requires SessionOf(m) != Some(other) && other in sessions
    requires forall id <- sessions :: Conserved(sessions[id])
    ensures other in Handle(sessions, m, chance).0 && Handle(sessions, m, chance).0[other] == sessions[other]
    ensures forall id <- Handle(sessions, m, chance).0 :: Conserved(Handle(sessions, m, chance).0[id])
  {
    match m
    case WaitForData(id) =>
      if id in sessions {
        PollConserves(sessions[id], chance.during);
      }
    case _ =>
  }

  /** A session whose connect failed: no peer was told its id, and whoever guessed it gets errors until it is closed. */
  lemma {:induction false} FailedConnectStays(sessions: map<string, Session>, deviceId: string, chance: Chance, m: PeerMessage, later: Chance)
    requires deviceId != "" && chance.newId.Some? && chance.newId.value !in sessions && !chance.connects
    requires later.newId.Some? ==> later.newId.value !in sessions && later.newId != chance.newId
    ensures var id := chance.newId.value;
            var (after, reply) := Handle(sessions, Connect(deviceId), chance);
            && reply == ErrorMessage && id in after && !after[id].connected
            && var (next, answer) := Handle(after, m, later);
               if m == PeerClosing(id) && id != "" then id !in next
               else id in next && next[id] == after[id] && (SessionOf(m) == Some(id) ==> answer == ErrorMessage)
  {
    var id := chance.newId.value;
    var after := Handle(sessions, Connect(deviceId), chance).0;
    if SessionOf(m) == Some(id) {
      assert after[id := after[id]] == after;
    }
  }

  class HttpRelayServer {
    var relayConnectionsBySessionId: map<string, RelaySessionConnection>

    constructor ()
      ensures Valid() && View() == map[] && fresh(Repr())
    {
      relayConnectionsBySessionId := map[];
    }

    ghost function Repr(): set<RelaySessionConnection>
      reads this
    {
      relayConnectionsBySessionId.Values
    }

    /** Every session sits under its own id, so no two ids share one. */
    ghost predicate Sound()
      reads this, Repr()
    {
      forall id <- relayConnectionsBySessionId ::
        relayConnectionsBySessionId[id].sessionId == id && relayConnectionsBySessionId[id].Valid()
    }

    ghost predicate Valid()
      reads this, Repr()
    {
      Sound() && forall id <- relayConnectionsBySessionId :: !relayConnectionsBySessionId[id].isClosed
    }

    ghost function View(): map<string, Session>
      reads this, Repr()
    {
      map id <- relayConnectionsBySessionId :: relayConnectionsBySessionId[id].State()
    }

    method HandleMessage(m: PeerMessage, chance: Chance) returns (reply: ServerMessage)
      requires Valid()
      requires chance.newId.Some? ==> chance.newId.value !in relayConnectionsBySessionId
      modifies this, Repr()
      ensures Valid() && (View(), reply) == Handle(old(View()), m, chance)
      ensures fresh(Repr() - old(Repr()))
    {
      hide SendData, Poll, Conserved;
      if m.Connect? {
        reply := OpenConnection(m.deviceId, chance);
        return;
      }
      var id := m.session;
      if id == "" || id !in relayConnectionsBySessionId {
        return ErrorMessage;
      }
      var connection := relayConnectionsBySessionId[id];
      match m {
        case PeerToRelay(_, _, _) =>
          var ok := connection.Send(m, chance.failAt);
          reply := if ok then DataAccepted else ErrorMessage;
        case WaitForData(_) =>
          var r := connection.WaitForDataAndGet(chance.during);
          reply := if r.Done? then r.value else ErrorMessage;
        case PeerClosing(_) =>
          connection.Close();
          reply := ServerClosing;
      }
      assert View() == old(View())[id := connection.State()];
      KeptTwice(old(View()), id, connection.State());
      DropIfClosed(id);
    }

    method OpenConnection(deviceId: string, chance: Chance) returns (reply: ServerMessage)
      requires Valid()
      requires chance.newId.Some? ==> chance.newId.value !in relayConnectionsBySessionId
      modifies this
      ensures Valid() && (View(), reply) == Handle(old(View()), Connect(deviceId), chance)
      ensures fresh(Repr() - old(Repr()))
    {
      if deviceId == "" || chance.newId.None? {
        return ErrorMessage;
      }
      var id := chance.newId.value;
      var connection := new RelaySessionConnection(id);
      hide Conserved, Poll, SendData, Kept;
      assert View() == old(View());
      Put(connection);
      if !chance.connects {
        return ErrorMessage;
      }
      ConnectSession(id);
      assert old(View())[id := Created(id)][id := Created(id).(connected := true)] == old(View())[id := Created(id).(connected := true)];
      reply := PeerConnected(id, chance.isServerSocket);
    }

    method Put(connection: RelaySessionConnection)
      requires Valid() && connection.sessionId !in relayConnectionsBySessionId && connection.Valid() && !connection.isClosed
      modifies this
      ensures Valid() && Repr() <= old(Repr()) + {connection}
      ensures relayConnectionsBySessionId == old(relayConnectionsBySessionId)[connection.sessionId := connection]
      ensures View() == old(View())[connection.sessionId := connection.State()]
    {
      hide Conserved;
      relayConnectionsBySessionId := relayConnectionsBySessionId[connection.sessionId := connection];
      forall id | id in relayConnectionsBySessionId && id != connection.sessionId
        ensures relayConnectionsBySessionId[id] == old(relayConnectionsBySessionId)[id] && relayConnectionsBySessionId[id] in old(Repr())
      {
      }
    }

    method ConnectSession(id: string)
      requires Valid() && id in relayConnectionsBySessionId
      modifies relayConnectionsBySessionId[id]
      ensures Valid() && View() == old(View())[id := old(View())[id].(connected := true)]
    {
      hide Conserved;
      var connection := relayConnectionsBySessionId[id];
      connection.Connect();
      assert View() == old(View())[id := connection.State()];
    }

    /** The handler of the event that a closing session posts. */
    method DropIfClosed(id: string)
      requires Sound() && id in relayConnectionsBySessionId
      requires forall other <- relayConnectionsBySessionId :: other != id ==> !relayConnectionsBySessionId[other].isClosed
      modifies this
      ensures Valid() && Repr() <= old(Repr())
      ensures View() == Kept(old(View()), id, old(View())[id])
    {
      if relayConnectionsBySessionId[id].isClosed {
        relayConnectionsBySessionId := relayConnectionsBySessionId - {id};
      } else {
        assert View() == View()[id := View()[id]];
      }
    }
  }
}

/**
 The client registry: live sessions, the username index, and the names of all
 clients that ever registered. Registry is the value of the three maps; its
 functions are the lock-protected sections of the original.
 */
module ClientRegistry {
  import opened Core
  import DomainModel

  datatype Registry = Registry(
    byId: map<ClientId, SessionRecord>,
    idOf: map<Username, ClientId>,
    historical: map<ClientId, Username>)
  {
    function Find(id: ClientId): Result<SessionRecord> {
      if id in byId then Ok(byId[id]) else Err(ClientNotFound)
    }

    function FindByUsername(name: Username): Result<SessionRecord> {
      if name !in idOf then Err(ClientNotFound) else Find(idOf[name])
    }

    function LookupUsername(id: ClientId): Result<Username> {
      if id in historical then Ok(historical[id]) else Err(ClientNotFound)
    }

    // The id and the clock reading are taken inside; here they are passed in.
    function Register(username: Username, newId: ClientId, now: int): (r: (Registry, Result<SessionRecord>))
      ensures r.1.Err? ==> r.0 == this
    {
      if username in idOf then (this, Err(ClientAlreadyExists))
      else
        var session := SessionRecord(newId, username, {}, now);
        (Registry(
           if newId in byId then byId else byId[newId := session],
           idOf[username := newId],
           historical[newId := username]),
         Ok(session))
    }

    function Remove(id: ClientId): (r: (Registry, Result<Unit>))
      ensures r.1.Err? ==> r.0 == this
    {
      if id !in byId then (this, Err(ClientNotFound))
      else (Registry(byId - {id}, idOf - {byId[id].username}, historical), Ok(Unit))
    }

    // Replace the session of a live client.
    function With(id: ClientId, session: SessionRecord): Registry {
      this.(byId := byId[id := session])
    }

    function Touch(id: ClientId, now: int): (Registry, Result<Unit>) {
      if id !in byId then (this, Err(ClientNotFound))
      else (With(id, byId[id].(lastHeartbeat := now)), Ok(Unit))
    }

    function Join(id: ClientId, channel: ChannelId): (r: (Registry, Result<Unit>))
      ensures r.1.Err? ==> r.0 == this
    {
      if id !in byId then (this, Err(ClientNotFound))
      else (With(id, byId[id].(joined := byId[id].joined + {channel})), Ok(Unit))
    }

    function Leave(id: ClientId, channel: ChannelId): (Registry, Result<Unit>) {
      if id !in byId then (this, Err(ClientNotFound))
      else (With(id, byId[id].(joined := byId[id].joined - {channel})), Ok(Unit))
    }

    // The clients whose last heartbeat lies before the deadline.
    function Expired(deadline: int): set<ClientId> {
      set id | id in byId && byId[id].lastHeartbeat < deadline
    }

    // The username index is the exact inverse of the live-session map, and
    // every live client's name is on record.
    ghost predicate Inv() {
      && (forall id :: id in byId ==>
            byId[id].id == id && byId[id].username in idOf && idOf[byId[id].username] == id)
      && (forall name :: name in idOf ==> idOf[name] in byId && byId[idOf[name]].username == name)
      && (forall id :: id in byId ==> id in historical && historical[id] == byId[id].username)
    }
  }

  const EMPTY_REGISTRY := Registry(map[], map[], map[])

  // An id that no client has ever had.
  ghost predicate FreshClient(registry: Registry, id: ClientId) {
    id !in registry.byId && id !in registry.historical
  }

  lemma RegisterKeepsIndexExact(registry: Registry, username: Username, newId: ClientId, now: int)
    requires registry.Inv() && FreshClient(registry, newId)
    ensures registry.Register(username, newId, now).0.Inv()
    ensures registry.Register(username, newId, now).1.Ok? <==> registry.FindByUsername(username).Err?
    ensures registry.Register(username, newId, now).1.Ok? ==>
      registry.Register(username, newId, now).0.FindByUsername(username)
        == registry.Register(username, newId, now).1
  {
  }

  // Removing a client frees its username and no other; its name stays on record.
  lemma RemoveKeepsIndexExact(registry: Registry, id: ClientId)
    requires registry.Inv()
    ensures registry.Remove(id).0.Inv()
    ensures registry.Remove(id).0.historical == registry.historical
    ensures forall name ::
      (registry.Remove(id).0.FindByUsername(name)
       == if registry.FindByUsername(name).Ok? && registry.FindByUsername(name).value.id == id
          then Err(ClientNotFound) else registry.FindByUsername(name))
  {
  }

  // Registering and removing again restores the live maps.
  lemma RegisterThenRemove(registry: Registry, username: Username, newId: ClientId, now: int)
    requires registry.Inv() && FreshClient(registry, newId)
    requires username !in registry.idOf
    ensures var r := registry.Register(username, newId, now).0.Remove(newId);
      && r.1 == Ok(Unit)
      && r.0.byId == registry.byId && r.0.idOf == registry.idOf
      && r.0.LookupUsername(newId) == Ok(username)
  {
  }

  class InMemoryClientRegistry {
    var clientsById: map<ClientId, SessionRecord>
    var usernameToId: map<Username, ClientId>
    var historicalUsernames: map<ClientId, Username>

    ghost function State(): Registry
      reads this
    {
      Registry(clientsById, usernameToId, historicalUsernames)
    }

    constructor ()
      ensures State() == EMPTY_REGISTRY
    {
      clientsById, usernameToId, historicalUsernames := map[], map[], map[];
    }

    method FindById(clientId: ClientId) returns (r: Result<SessionRecord>)
      ensures r == State().Find(clientId)
    {
      if clientId !in clientsById {
        return Err(ClientNotFound);
      }
      r := Ok(clientsById[clientId]);
    }

    method LookupUsername(clientId: ClientId) returns (r: Result<Username>)
      ensures r == State().LookupUsername(clientId)
    {
      if clientId !in historicalUsernames {
        return Err(ClientNotFound);
      }
      r := Ok(historicalUsernames[clientId]);
    }

    method RegisterClient(username: Username, newId: ClientId, now: int) returns (r: Result<SessionRecord>)
      modifies this
      ensures (State(), r) == old(State()).Register(username, newId, now)
    {
      if username in usernameToId {
        return Err(ClientAlreadyExists);
      }
      var session := new DomainModel.ClientSession(newId, username, now);
      if newId !in clientsById {
        clientsById := clientsById[newId := session.Record()];
      }
      usernameToId := usernameToId[username := newId];
      historicalUsernames := historicalUsernames[newId := username];
      r := Ok(session.Record());
    }

    method Remove(clientId: ClientId) returns (r: Result<Unit>)
      modifies this
      ensures (State(), r) == old(State()).Remove(clientId)
    {
      if clientId !in clientsById {
        return Err(ClientNotFound);
      }
      usernameToId := usernameToId - {clientsById[clientId].username};
      clientsById := clientsById - {clientId};
      r := Ok(Unit);
    }

    method TouchHeartbeat(clientId: ClientId, now: int) returns (r: Result<Unit>)
      modifies this`clientsById
      ensures (State(), r) == old(State()).Touch(clientId, now)
    {
      if clientId !in clientsById {
        return Err(ClientNotFound);
      }
      var session := new DomainModel.ClientSession.CopyOf(clientsById[clientId]);
      session.Touch(now);
      clientsById := clientsById[clientId := session.Record()];
      r := Ok(Unit);
    }

    method JoinChannelAtomic(clientId: ClientId, channelId: ChannelId) returns (r: Result<Unit>)
      modifies this`clientsById
      ensures (State(), r) == old(State()).Join(clientId, channelId)
    {
      if clientId !in clientsById {
        return Err(ClientNotFound);
      }
      var session := new DomainModel.ClientSession.CopyOf(clientsById[clientId]);
      session.JoinChannel(channelId);
      clientsById := clientsById[clientId := session.Record()];
      r := Ok(Unit);
    }

    method LeaveChannelAtomic(clientId: ClientId, channelId: ChannelId) returns (r: Result<Unit>)
      modifies this`clientsById
      ensures (State(), r) == old(State()).Leave(clientId, channelId)
    {
      if clientId !in clientsById {
        return Err(ClientNotFound);
      }
      var session := new DomainModel.ClientSession.CopyOf(clientsById[clientId]);
      session.LeaveChannel(channelId);
      clientsById := clientsById[clientId := session.Record()];
      r := Ok(Unit);
    }

    // Copies of the sessions past the deadline, each once, in the order the map is walked.
    method CollectExpired(deadline: int) returns (expired: seq<SessionRecord>, ghost order: seq<ClientId>)
      ensures forall s :: s in expired ==> s in clientsById.Values && s.lastHeartbeat < deadline
      ensures forall id :: id in State().Expired(deadline) ==> clientsById[id] in expired
      ensures Enumerates(order, State().Expired(deadline))
      ensures |expired| == |order|
      ensures forall i :: 0 <= i < |order| ==> order[i] in clientsById && expired[i] == clientsById[order[i]]
    {
      expired, order := [], [];
      var todo := clientsById.Keys;
      while todo != {}
        invariant todo <= clientsById.Keys
        invariant Enumerates(order, State().Expired(deadline) - todo)
        invariant |expired| == |order|
        invariant forall i :: 0 <= i < |order| ==> order[i] in clientsById && expired[i] == clientsById[order[i]]
        decreases todo
      {
        var id :| id in todo;
        var session := new DomainModel.ClientSession.CopyOf(clientsById[id]);
        todo := todo - {id};
        if session.IsExpired(deadline) {
          EnumeratesSnoc(order, State().Expired(deadline) - (todo + {id}), id);
          assert State().Expired(deadline) - (todo + {id}) + {id} == State().Expired(deadline) - todo;
          expired, order := expired + [session.Record()], order + [id];
        } else {
          assert State().Expired(deadline) - (todo + {id}) == State().Expired(deadline) - todo;
        }
        assert todo + {id} <= clientsById.Keys;
      }
      assert State().Expired(deadline) - {} == State().Expired(deadline);
      assert forall id :: id in State().Expired(deadline) ==> id in Elems(order);
      assert forall i :: 0 <= i < |order| ==> order[i] in Elems(order);
    }
  }
}

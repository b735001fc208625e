/**
 The lock-protected sections of the three stores, each an operation that runs as
 a whole, and what one section reads and changes.
 */
module Sections {
  import opened Core
  import opened ChannelRepository
  import opened ClientRegistry
  import opened MessageRepository
  import opened UseCases

  datatype Op =
    | FindChannel(channel: ChannelId)
    | FindChannelByName(name: ChannelName)
    | SaveChannel(record: ChannelRecord)
    | MakeChannel(name: ChannelName, newChannel: ChannelId)
    | FindSession(client: ClientId)
    | Register(username: Username, newClient: ClientId, now: int)
    | RemoveSession(client: ClientId)
    | Touch(client: ClientId, now: int)
    | JoinAtomic(client: ClientId, channel: ChannelId)
    | LeaveAtomic(client: ClientId, channel: ChannelId)
    | CollectExpired(deadline: int, walk: seq<ClientId>)
    | SaveMessage(message: Message)

  datatype Reply =
    | ChannelReply(found: Result<ChannelRecord>)
    | SessionReply(session: Result<SessionRecord>)
    | UnitReply(done: Result<Unit>)
    | Expired(sessions: seq<SessionRecord>)

  function RepoAfter(repo: Repo, op: Op): Repo {
    match op
    case SaveChannel(record) => repo.Save(record)
    case MakeChannel(name, newChannel) => repo.Create(name, newChannel).0
    case _ => repo
  }

  function ClientsAfter(clients: Registry, op: Op): Registry {
    match op
    case Register(username, newClient, now) => clients.Register(username, newClient, now).0
    case RemoveSession(client) => clients.Remove(client).0
    case Touch(client, now) => clients.Touch(client, now).0
    case JoinAtomic(client, channel) => clients.Join(client, channel).0
    case LeaveAtomic(client, channel) => clients.Leave(client, channel).0
    case _ => clients
  }

  function MessagesAfter(messages: Buffers, op: Op): Buffers {
    if op.SaveMessage? then messages.Save(op.message) else messages
  }

  function StoresAfter(s: Stores, op: Op): Stores {
    Stores(RepoAfter(s.repo, op), ClientsAfter(s.clients, op), MessagesAfter(s.messages, op))
  }

  // Copies of the sessions with these ids.
  ghost function Copies(clients: Registry, ids: seq<ClientId>): (sessions: seq<SessionRecord>)
    requires forall id :: id in ids ==> id in clients.byId
    ensures |sessions| == |ids|
  {
    seq(|ids|, i requires 0 <= i < |ids| => clients.byId[ids[i]])
  }

  // walk is the order in which the map of sessions is walked.
  ghost function CopiesOfExpired(clients: Registry, deadline: int, walk: seq<ClientId>): seq<SessionRecord> {
    var ids := InOrder(walk, clients.Expired(deadline));
    assert forall id :: id in ids ==> id in Elems(ids);
    Copies(clients, ids)
  }

  ghost function ReplyTo(s: Stores, op: Op): Reply {
    match op
    case FindChannel(channel) => ChannelReply(s.repo.Find(channel))
    case FindChannelByName(name) => ChannelReply(s.repo.FindByName(name))
    case SaveChannel(_) => UnitReply(Ok(Unit))
    case MakeChannel(name, newChannel) => ChannelReply(s.repo.Create(name, newChannel).1)
    case FindSession(client) => SessionReply(s.clients.Find(client))
    case Register(username, newClient, now) => SessionReply(s.clients.Register(username, newClient, now).1)
    case RemoveSession(client) => UnitReply(s.clients.Remove(client).1)
    case Touch(client, now) => UnitReply(s.clients.Touch(client, now).1)
    case JoinAtomic(client, channel) => UnitReply(s.clients.Join(client, channel).1)
    case LeaveAtomic(client, channel) => UnitReply(s.clients.Leave(client, channel).1)
    case CollectExpired(deadline, walk) => Expired(CopiesOfExpired(s.clients, deadline, walk))
    case SaveMessage(_) => UnitReply(Ok(Unit))
  }

  // ----- What a section reads and changes -----

  datatype Footprint = Footprint(
    clients: set<ClientId>, usernames: set<Username>, channels: set<ChannelId>, names: set<ChannelName>)

  ghost predicate Disjoint(f: Footprint, g: Footprint) {
    f.clients !! g.clients && f.usernames !! g.usernames && f.channels !! g.channels && f.names !! g.names
  }

  ghost predicate Same<K, V>(m: map<K, V>, n: map<K, V>, keys: set<K>) {
    forall k :: k in keys ==> (k in m <==> k in n) && (k in m ==> m[k] == n[k])
  }

  ghost predicate SameOutside<K(!new), V>(m: map<K, V>, n: map<K, V>, keys: set<K>) {
    forall k :: k !in keys ==> (k in m <==> k in n) && (k in m ==> m[k] == n[k])
  }

  ghost predicate AgreeRepo(r: Repo, q: Repo, f: Footprint) {
    Same(r.byId, q.byId, f.channels) && Same(r.idOf, q.idOf, f.names)
  }

  ghost predicate AgreeClients(r: Registry, q: Registry, f: Footprint) {
    Same(r.byId, q.byId, f.clients) && Same(r.idOf, q.idOf, f.usernames) && Same(r.historical, q.historical, f.clients)
  }

  ghost predicate AgreeMessages(b: Buffers, c: Buffers, f: Footprint) {
    b.cap == c.cap && Same(b.byChannel, c.byChannel, f.channels)
  }

  // Two states that look alike through a footprint.
  ghost predicate Agree(s: Stores, t: Stores, f: Footprint) {
    AgreeRepo(s.repo, t.repo, f) && AgreeClients(s.clients, t.clients, f) && AgreeMessages(s.messages, t.messages, f)
  }

  ghost predicate RepoChangedWithin(r: Repo, q: Repo, f: Footprint) {
    SameOutside(r.byId, q.byId, f.channels) && SameOutside(r.idOf, q.idOf, f.names)
  }

  ghost predicate ClientsChangedWithin(r: Registry, q: Registry, f: Footprint) {
    && SameOutside(r.byId, q.byId, f.clients) && SameOutside(r.idOf, q.idOf, f.usernames)
    && SameOutside(r.historical, q.historical, f.clients)
  }

  // Two states that look alike everywhere else.
  ghost predicate ChangedWithin(s: Stores, t: Stores, f: Footprint) {
    && RepoChangedWithin(s.repo, t.repo, f) && ClientsChangedWithin(s.clients, t.clients, f)
    && s.messages.cap == t.messages.cap && SameOutside(s.messages.byChannel, t.messages.byChannel, f.channels)
  }

  ghost predicate SessionWithin(session: SessionRecord, f: Footprint) {
    session.id in f.clients && session.username in f.usernames && session.joined <= f.channels
  }

  ghost predicate ChannelWithin(record: ChannelRecord, f: Footprint) {
    record.id in f.channels && record.name in f.names
  }

  ghost predicate ClosedRepo(repo: Repo, f: Footprint) {
    && (forall id :: id in f.channels && id in repo.byId ==> repo.byId[id].id == id && ChannelWithin(repo.byId[id], f))
    && (forall name :: name in f.names && name in repo.idOf ==> repo.idOf[name] in f.channels)
  }

  ghost predicate ClosedClients(clients: Registry, f: Footprint) {
    forall id :: id in f.clients && id in clients.byId ==>
      clients.byId[id].id == id && SessionWithin(clients.byId[id], f)
  }

  // What the stores hold inside a footprint leads nowhere outside it.
  ghost predicate Closed(s: Stores, f: Footprint) {
    ClosedRepo(s.repo, f) && ClosedClients(s.clients, f)
  }

  ghost predicate OpWithin(op: Op, f: Footprint) {
    match op
    case FindChannel(channel) => channel in f.channels
    case FindChannelByName(name) => name in f.names
    case SaveChannel(record) => ChannelWithin(record, f)
    case MakeChannel(name, newChannel) => name in f.names && newChannel in f.channels
    case FindSession(client) => client in f.clients
    case Register(username, newClient, _) => username in f.usernames && newClient in f.clients
    case RemoveSession(client) => client in f.clients
    case Touch(client, _) => client in f.clients
    case JoinAtomic(client, channel) => client in f.clients && channel in f.channels
    case LeaveAtomic(client, channel) => client in f.clients && channel in f.channels
    case CollectExpired(_, _) => false
    case SaveMessage(message) => message.channel in f.channels
  }

  ghost predicate ReplyWithin(reply: Reply, f: Footprint) {
    match reply
    case ChannelReply(found) => found.Ok? ==> ChannelWithin(found.value, f)
    case SessionReply(session) => session.Ok? ==> SessionWithin(session.value, f)
    case UnitReply(_) => true
    case Expired(_) => false
  }

  // A section inside a footprint changes nothing outside it, ...
  lemma OpChangesWithin(s: Stores, op: Op, f: Footprint)
    requires Closed(s, f) && OpWithin(op, f)
    ensures ChangedWithin(s, StoresAfter(s, op), f)
  {
  }

  // ... leaves it closed, ...
  lemma OpKeepsClosed(s: Stores, op: Op, f: Footprint)
    requires Closed(s, f) && OpWithin(op, f)
    ensures Closed(StoresAfter(s, op), f)
    ensures ReplyWithin(ReplyTo(s, op), f)
  {
  }

  // ... and depends on nothing outside it.
  lemma OpIsLocal(s: Stores, t: Stores, op: Op, f: Footprint)
    requires Closed(s, f) && OpWithin(op, f) && Agree(s, t, f)
    ensures ReplyTo(s, op) == ReplyTo(t, op)
    ensures Agree(StoresAfter(s, op), StoresAfter(t, op), f)
  {
  }
}

/**
 Runs of the server in which every request, and every sweep, is one step. The
 history variables saves and stale exist only for the statements: every message
 saved so far, and for each subscriber of the channel list the channels whose
 member count, as last shown to it, an expiry has overtaken.
 */
module Runs {
  import opened Core
  import opened ChannelRepository
  import opened ClientRegistry
  import opened MessageRepository
  import opened UseCases
  import opened Membership
  import opened Expiry
  import opened Writers
  import Chat = ChatPublisher
  import List = ListPublisher
  import Text

  datatype World = World(
    stores: Stores,
    chat: Chat.ChatStreams,
    list: List.ListStreams,
    saves: seq<Message>,
    stale: map<ClientId, set<ChannelId>>)

  // Requests with everything that the original draws from its surroundings:
  // fresh ids, clock readings, and the orders of unordered containers.
  datatype Request =
    | ConnectRequest(username: string, newClient: ClientId, now: int)
    | HeartbeatRequest(client: ClientId, now: int)
    | CreateRequest(client: ClientId, name: string, newChannel: ChannelId)
    | JoinRequest(client: ClientId, channel: ChannelId, others: seq<ChannelId>)
    | JoinByNameRequest(client: ClientId, name: string, others: seq<ChannelId>)
    | LeaveRequest(client: ClientId, channel: ChannelId)
    | SendRequest(client: ClientId, channel: ChannelId, content: string, newMessage: MessageId, now: int,
                  order: seq<ClientId>)
    | DisconnectRequest(client: ClientId, channels: seq<ChannelId>)
    | ExpireRequest(deadline: int, doomed: seq<Doomed>)
    | SubscribeRequest(client: ClientId, channel: ChannelId, writer: WriterId)
    | CancelRequest(client: ClientId)
    | WatchRequest(client: ClientId, writer: WriterId, listed: seq<ChannelRecord>)
    | UnwatchRequest(client: ClientId)

  function Outcomes<T>(o: Outcome<T>): Outcome<Unit> {
    Outcome(o.stores, o.calls, if o.result.Ok? then Ok(Unit) else Err(o.result.error))
  }

  // Subscribing is for members.
  function Subscribe(s: Stores, client: ClientId, channel: ChannelId): Result<Unit> {
    match s.repo.Find(channel)
    case Err(e) => Err(e)
    case Ok(record) => if client !in record.members then Err(NotAMember) else Ok(Unit)
  }

  // The use case behind a request.
  function Execute(s: Stores, request: Request): Outcome<Unit> {
    match request
    case ConnectRequest(username, newClient, now) => Outcomes(Connect(s, username, newClient, now))
    case HeartbeatRequest(client, now) => Heartbeat(s, client, now)
    case CreateRequest(client, name, newChannel) => Outcomes(CreateChannel(s, client, name, newChannel))
    case JoinRequest(client, channel, others) => Join(s, client, channel, others)
    case JoinByNameRequest(client, name, others) => Outcomes(JoinByName(s, client, name, others))
    case LeaveRequest(client, channel) => Leave(s, client, channel)
    case SendRequest(client, channel, content, newMessage, now, order) =>
      Outcomes(Send(s, client, channel, content, newMessage, now, order))
    case DisconnectRequest(client, channels) => Disconnect(s, client, channels)
    case ExpireRequest(deadline, doomed) => Outcome(Sweep(s, doomed).0, Sweep(s, doomed).1, Ok(Unit))
    case SubscribeRequest(client, channel, _) => Outcome(s, [], Subscribe(s, client, channel))
    case WatchRequest(client, _, _) =>
      Outcome(s, [], if client in s.clients.byId then Ok(Unit) else Err(ClientNotFound))
    case _ => Outcome(s, [], Ok(Unit))
  }

  // The channel that the name of a join-by-name request stands for.
  function NamedChannel(s: Stores, name: string): Result<ChannelRecord> {
    match Text.CreateChannelName(Text.Trim(name))
    case None => Err(InvalidChannelName)
    case Some(valid) => s.repo.FindByName(valid)
  }

  ghost predicate FreshMessage(saves: seq<Message>, id: MessageId) {
    forall m :: m in saves ==> m.id != id
  }

  // Generated ids are new, writers are new, and the orders list what is walked.
  ghost predicate Admissible(w: World, request: Request) {
    var s := w.stores;
    match request
    case ConnectRequest(_, newClient, _) => FreshClient(s.clients, newClient)
    case CreateRequest(_, _, newChannel) => newChannel !in s.repo.byId
    case JoinRequest(client, channel, others) => OrdersOthers(s, client, channel, others)
    case JoinByNameRequest(client, name, others) =>
      NamedChannel(s, name).Ok? ==> OrdersOthers(s, client, NamedChannel(s, name).value.id, others)
    case SendRequest(client, channel, _, newMessage, _, order) =>
      && FreshMessage(w.saves, newMessage)
      && (channel in s.repo.byId ==> Enumerates(order, Recipients(s.repo.byId[channel], client, IncludeSender)))
    case DisconnectRequest(client, channels) =>
      client in s.clients.byId ==> Enumerates(channels, s.clients.byId[client].joined)
    case ExpireRequest(deadline, doomed) => Collected(s, deadline, doomed)
    case SubscribeRequest(_, _, writer) => writer !in w.chat.written
    case WatchRequest(_, writer, listed) => writer !in w.list.written && Lists(listed, s.repo)
    case _ => true
  }

  // The message that a request saves, if any.
  function SavedBy(s: Stores, request: Request): seq<Message> {
    if request.SendRequest? && Execute(s, request).result.Ok? then
      match Text.CreateContent(request.content)
      case Ok(valid) => [Message(request.newMessage, request.client, request.channel, valid, request.now)]
      case Err(_) => []
    else []
  }

  // A farewell makes the announced count of a channel stale until the next count event.
  function StaleAfterCall(stale: set<ChannelId>, call: Call): set<ChannelId> {
    match call
    case MemberLeft(channel, _, _, _) => stale + {channel}
    case MemberCountChanged(channel, _) => stale - {channel}
    case _ => stale
  }

  function StaleAfter(stale: set<ChannelId>, calls: seq<Call>): set<ChannelId> {
    if calls == [] then stale
    else StaleAfterCall(StaleAfter(stale, calls[..|calls| - 1]), calls[|calls| - 1])
  }

  // A snapshot is exact; after it the subscriber is told of every call.
  function StalesAfter(w: World, request: Request): map<ClientId, set<ChannelId>> {
    match request
    case WatchRequest(client, _, _) => if client in w.stores.clients.byId then w.stale[client := {}] else w.stale
    case UnwatchRequest(client) => w.stale - {client}
    case _ => map c | c in w.stale :: StaleAfter(w.stale[c], Execute(w.stores, request).calls)
  }

  // A subscription registers the writer first and unregisters the client again
  // when it turns out not to be a member.
  function ChatAfter(w: World, request: Request): Chat.ChatStreams {
    match request
    case SubscribeRequest(client, channel, writer) =>
      var registered := w.chat.Register(client, writer, []);
      if Subscribe(w.stores, client, channel).Ok? then registered else registered.Unregister(client)
    case CancelRequest(client) => w.chat.Unregister(client)
    case _ => Chat.ApplyAll(w.chat, Execute(w.stores, request).calls, w.stores.clients.historical)
  }

  function ListAfter(w: World, request: Request): List.ListStreams {
    match request
    case WatchRequest(client, writer, listed) =>
      if client !in w.stores.clients.byId then w.list
      else w.list.Register(client, writer, [List.Snapshot(List.SummariseAll(listed))])
    case UnwatchRequest(client) => w.list.Unregister(client)
    case _ => List.ApplyAll(w.list, Execute(w.stores, request).calls)
  }

  function Next(w: World, request: Request): World {
    var out := Execute(w.stores, request);
    World(out.stores, ChatAfter(w, request), ListAfter(w, request),
          w.saves + SavedBy(w.stores, request), StalesAfter(w, request))
  }

  // The server starts with one seeded channel and nobody connected.
  function Start(cap: nat, general: ChannelId): World {
    World(Stores(EMPTY_REPO.Create(ChannelName("general"), general).0, EMPTY_REGISTRY, Empty(cap)),
          Streams(map[], map[]), Streams(map[], map[]), [], map[])
  }

  ghost predicate Run(cap: nat, worlds: seq<World>, requests: seq<Request>) {
    && |worlds| == |requests| + 1
    && (exists general :: worlds[0] == Start(cap, general))
    && forall i :: 0 <= i < |requests| ==>
         Admissible(worlds[i], requests[i]) && worlds[i + 1] == Next(worlds[i], requests[i])
  }

  // ----- What every step keeps -----

  ghost predicate Inv(w: World) {
    && Linked(w.stores) && AtMostOneChannel(w.stores)
    && w.chat.Inv() && w.list.Inv()
  }

  // The stores after a successful request, in closed form.
  lemma StoresAfter(w: World, request: Request)
    requires Inv(w) && Admissible(w, request)
    ensures var s, s' := w.stores, Next(w, request).stores;
      match request
      case JoinRequest(client, channel, _) =>
        s' == if client in s.clients.byId && channel in s.repo.byId then InOnly(s, client, channel) else s
      case JoinByNameRequest(client, name, _) =>
        s' == if client in s.clients.byId && NamedChannel(s, name).Ok?
              then InOnly(s, client, NamedChannel(s, name).value.id) else s
      case LeaveRequest(client, channel) =>
        s' == if IsMember(s, client, channel) && client in s.clients.byId then Detached(s, client, {channel}) else s
      case DisconnectRequest(client, _) =>
        s' == if client in s.clients.byId then Dropped(s, {client}) else s
      case ExpireRequest(deadline, _) => s' == Dropped(s, s.clients.Expired(deadline))
      case _ => true
  {
    var s := w.stores;
    match request {
      case JoinRequest(client, channel, others) =>
        if client in s.clients.byId && channel in s.repo.byId {
          JoinEffect(s, client, channel, others);
        }
      case JoinByNameRequest(client, name, others) =>
        JoinByNameIsJoin(s, client, name, others);
        if client in s.clients.byId && NamedChannel(s, name).Ok? {
          JoinEffect(s, client, NamedChannel(s, name).value.id, others);
        }
      case LeaveRequest(client, channel) =>
        LeaveEffect(s, client, channel);
        assert IsMember(s, client, channel) <==> HasJoined(s, client, channel);
      case DisconnectRequest(client, channels) =>
        DisconnectEffect(s, client, channels);
      case ExpireRequest(deadline, doomed) =>
        SweepIsOrderIndependent(s, deadline, doomed);
      case _ =>
    }
  }

  // The calls of a request, in closed form; none where a request is refused.
  lemma CallsAfter(w: World, request: Request)
    requires Inv(w) && Admissible(w, request)
    ensures var s, calls := w.stores, Execute(w.stores, request).calls;
      match request
      case JoinRequest(client, channel, others) =>
        if client in s.clients.byId && channel in s.repo.byId
        then (forall id :: id in others ==> id in s.repo.byId)
             && calls == JoinCalls(s, s.clients.byId[client], channel, others)
        else calls == []
      case JoinByNameRequest(client, name, others) =>
        if client in s.clients.byId && NamedChannel(s, name).Ok?
        then (forall id :: id in others ==> id in s.repo.byId)
             && NamedChannel(s, name).value.id in s.repo.byId
             && calls == JoinCalls(s, s.clients.byId[client], NamedChannel(s, name).value.id, others)
        else calls == []
      case LeaveRequest(client, channel) =>
        if IsMember(s, client, channel)
        then client in s.clients.byId && calls == LeaveCalls(s, s.clients.byId[client], channel)
        else calls == []
      case DisconnectRequest(client, channels) =>
        if client in s.clients.byId
        then (forall id :: id in channels ==> id in s.repo.byId)
             && calls == LeaveAllCalls(s, s.clients.byId[client], channels) + [Unsubscribed(client)]
        else calls == []
      case ExpireRequest(deadline, doomed) => ChannelsExist(s, doomed) && calls == SweepCalls(s, doomed)
      case CreateRequest(client, name, newChannel) =>
        var valid := Text.CreateChannelName(Text.Trim(name));
        if client in s.clients.byId && valid.Some? && valid.value !in s.repo.idOf
        then calls == [ChannelCreated(ChannelRecord(newChannel, valid.value, {}))]
        else calls == []
      case SendRequest(client, channel, content, newMessage, now, order) =>
        var valid := Text.CreateContent(content);
        if client in s.clients.byId && IsMember(s, client, channel) && valid.Ok?
        then calls == PublishCalls(order, Message(newMessage, client, channel, valid.value, now))
        else calls == []
      case _ => calls == []
  {
    hide LeaveAllCalls;
    hide JoinCalls;
    hide SweepCalls;
    hide InOnly;
    hide Detached;
    hide Dropped;
    var s := w.stores;
    match request {
      case JoinRequest(client, channel, others) =>
        if client in s.clients.byId && channel in s.repo.byId {
          JoinEffect(s, client, channel, others);
        }
      case JoinByNameRequest(client, name, others) =>
        JoinByNameIsJoin(s, client, name, others);
        if client in s.clients.byId && NamedChannel(s, name).Ok? {
          JoinEffect(s, client, NamedChannel(s, name).value.id, others);
        }
      case LeaveRequest(client, channel) =>
        LeaveEffect(s, client, channel);
      case DisconnectRequest(client, channels) =>
        DisconnectEffect(s, client, channels);
      case ExpireRequest(deadline, doomed) =>
        SweepIsOrderIndependent(s, deadline, doomed);
      case _ =>
    }
  }

  // Joining by name is looking the name up and joining by id, in state, calls
  // and answer; the two differ in how they refuse.
  lemma JoinByNameIsJoin(s: Stores, client: ClientId, name: string, others: seq<ChannelId>)
    requires s.repo.Inv()
    ensures NamedChannel(s, name).Ok? ==>
      var byName := JoinByName(s, client, name, others);
      var byId := Join(s, client, NamedChannel(s, name).value.id, others);
      && byName.stores == byId.stores && byName.calls == byId.calls
      && byName.result == if byId.result.Ok? then Ok(NamedChannel(s, name).value.id) else Err(byId.result.error)
    ensures NamedChannel(s, name).Err? ==>
      JoinByName(s, client, name, others)
        == Refused(s, if client !in s.clients.byId then ClientNotFound else NamedChannel(s, name).error)
  {
  }

  lemma NothingHappens(w: World, request: Request)
    requires !request.SubscribeRequest? && !request.CancelRequest? && !request.UnwatchRequest?
    requires request.WatchRequest? ==> request.client !in w.stores.clients.byId
    requires Execute(w.stores, request).stores == w.stores && Execute(w.stores, request).calls == []
    requires SavedBy(w.stores, request) == []
    ensures Next(w, request) == w
  {
    hide Execute; hide SavedBy;
    assert w.saves + [] == w.saves;
    assert (map c | c in w.stale :: StaleAfter(w.stale[c], [])) == w.stale;
  }

  // A request that is answered with an error has changed no store and made no call,
  // except that a refused subscription ends an earlier one.
  lemma ErrorChangesNothing(w: World, request: Request)
    requires Inv(w) && Admissible(w, request) && !request.SubscribeRequest?
    requires Execute(w.stores, request).result.Err?
    ensures Execute(w.stores, request).stores == w.stores
    ensures Execute(w.stores, request).calls == []
    ensures Next(w, request) == w
  {
    hide Next;
    hide InOnly; hide Dropped; hide Detached; hide LeaveAllCalls; hide JoinCalls; hide LeaveCalls; hide LeaveEach;
    hide LeaveOtherChannels;
    var s := w.stores;
    match request {
      case JoinRequest(client, channel, others) =>
        if client in s.clients.byId && channel in s.repo.byId {
          JoinEffect(s, client, channel, others);
        }
      case JoinByNameRequest(client, name, others) =>
        JoinByNameIsJoin(s, client, name, others);
        if client in s.clients.byId && NamedChannel(s, name).Ok? {
          JoinEffect(s, client, NamedChannel(s, name).value.id, others);
        }
      case LeaveRequest(client, channel) =>
        LeaveEffect(s, client, channel);
      case DisconnectRequest(client, channels) =>
        DisconnectEffect(s, client, channels);
      case _ =>
    }
    NothingHappens(w, request);
  }

  lemma JoinRuns(s: Stores, client: ClientId, channel: ChannelId, others: seq<ChannelId>)
    ensures Execute(s, JoinRequest(client, channel, others)) == Join(s, client, channel, others)
    ensures SavedBy(s, JoinRequest(client, channel, others)) == []
  {
  }

  lemma JoinedOnly(w: World, client: ClientId, channel: ChannelId, others: seq<ChannelId>)
    requires Inv(w) && client in w.stores.clients.byId && channel in w.stores.repo.byId
    requires Admissible(w, JoinRequest(client, channel, others))
    ensures var s := Next(w, JoinRequest(client, channel, others)).stores;
      && Linked(s) && client in s.clients.byId && channel in s.repo.byId
      && s.clients.byId[client].joined == {channel}
  {
    hide ChatAfter; hide ListAfter; hide StalesAfter; hide Linked; hide JoinCalls;
    JoinEffect(w.stores, client, channel, others);
    InOnlyKeepsLinks(w.stores, client, channel);
  }

  // Joining the same channel a second time is answered with success and does
  // nothing, neither to the stores nor to any stream.
  lemma JoinTwice(w: World, client: ClientId, channel: ChannelId, others: seq<ChannelId>, again: seq<ChannelId>)
    requires Inv(w) && client in w.stores.clients.byId && channel in w.stores.repo.byId
    requires Admissible(w, JoinRequest(client, channel, others))
    requires Admissible(Next(w, JoinRequest(client, channel, others)), JoinRequest(client, channel, again))
    ensures var once := Next(w, JoinRequest(client, channel, others));
      && Next(once, JoinRequest(client, channel, again)) == once
      && Execute(once.stores, JoinRequest(client, channel, again)) == Outcome(once.stores, [], Ok(Unit))
  {
    var once := Next(w, JoinRequest(client, channel, others));
    JoinRuns(once.stores, client, channel, again);
    assert OrdersOthers(once.stores, client, channel, again);
    hide *;
    JoinedOnly(w, client, channel, others);
    JoinAgain(once.stores, client, channel, again);
    NothingHappens(once, JoinRequest(client, channel, again));
  }

  // The one refusal that is not free of effects: the writer is registered before
  // the check and unregistered after it, so an earlier subscription of the same
  // client ends, and is kept exactly if there was none.
  lemma RefusedSubscriptionEndsEarlierOne(w: World, client: ClientId, channel: ChannelId, writer: WriterId)
    requires Inv(w) && writer !in w.chat.written && !IsMember(w.stores, client, channel)
    ensures Execute(w.stores, SubscribeRequest(client, channel, writer)).result
      == Err(if channel in w.stores.repo.byId then NotAMember else ChannelNotFound)
    ensures var w' := Next(w, SubscribeRequest(client, channel, writer));
      && w'.stores == w.stores && w'.list == w.list
      && w'.chat.writers == w.chat.writers - {client}
      && (w'.chat.writers == w.chat.writers <==> client !in w.chat.writers)
      && forall v :: v in w.chat.written ==> v in w'.chat.written && w'.chat.written[v] == w.chat.written[v]
  {
    var w' := Next(w, SubscribeRequest(client, channel, writer));
    assert client !in w'.chat.writers;
    assert w'.list == List.ApplyAll(w.list, []);
  }

  // ----- Every run keeps the two sides of membership in step -----

  lemma {:induction false} DeliveriesKeepInv(s: Chat.ChatStreams, calls: seq<Call>, names: Chat.Names)
    requires s.Inv()
    ensures Chat.ApplyAll(s, calls, names).Inv()
  {
    if calls != [] {
      DeliveriesKeepInv(s, calls[..|calls| - 1], names);
    }
  }

  lemma {:induction false} ListDeliveriesKeepInv(s: List.ListStreams, calls: seq<Call>)
    requires s.Inv()
    ensures List.ApplyAll(s, calls).Inv()
  {
    if calls != [] {
      ListDeliveriesKeepInv(s, calls[..|calls| - 1]);
    }
  }

  lemma NewClientKeepsLinks(s: Stores, username: string, newClient: ClientId, now: int)
    requires Linked(s) && AtMostOneChannel(s) && FreshClient(s.clients, newClient)
    ensures var s' := Connect(s, username, newClient, now).stores;
      Linked(s') && AtMostOneChannel(s')
  {
    var s' := Connect(s, username, newClient, now).stores;
    forall c, channel
      ensures IsMember(s', c, channel) <==> IsMember(s, c, channel)
      ensures HasJoined(s', c, channel) <==> HasJoined(s, c, channel)
    {
    }
  }

  lemma SameLinks(s: Stores, s': Stores)
    requires Linked(s) && AtMostOneChannel(s) && s'.repo.Inv() && s'.clients.Inv()
    requires forall c, channel :: IsMember(s', c, channel) <==> IsMember(s, c, channel)
    requires forall c, channel :: HasJoined(s', c, channel) <==> HasJoined(s, c, channel)
    ensures Linked(s') && AtMostOneChannel(s')
  {
  }

  lemma CreateKeepsLinks(s: Stores, client: ClientId, name: string, newChannel: ChannelId)
    requires Linked(s) && AtMostOneChannel(s) && newChannel !in s.repo.byId
    ensures var s' := CreateChannel(s, client, name, newChannel).stores;
      Linked(s') && AtMostOneChannel(s')
  {
    var s' := CreateChannel(s, client, name, newChannel).stores;
    forall c, channel ensures IsMember(s', c, channel) <==> IsMember(s, c, channel) {
      assert HasJoined(s, c, channel) <==> HasJoined(s', c, channel);
    }
    SameLinks(s, s');
  }

  lemma HeartbeatKeepsLinks(s: Stores, client: ClientId, now: int)
    requires Linked(s) && AtMostOneChannel(s)
    ensures var s' := Heartbeat(s, client, now).stores;
      Linked(s') && AtMostOneChannel(s')
  {
    var s' := Heartbeat(s, client, now).stores;
    forall c, channel ensures HasJoined(s', c, channel) <==> HasJoined(s, c, channel) {
    }
    SameLinks(s, s');
  }

  lemma SendKeepsLinks(s: Stores, request: Request)
    requires Linked(s) && AtMostOneChannel(s) && request.SendRequest?
    ensures Linked(Execute(s, request).stores) && AtMostOneChannel(Execute(s, request).stores)
  {
    var s' := Execute(s, request).stores;
    assert s'.repo == s.repo && s'.clients == s.clients;
    hide Execute;
    SameLinks(s, s');
  }

  lemma StoresKeepLinks(w: World, request: Request)
    requires Inv(w) && Admissible(w, request)
    ensures Linked(Next(w, request).stores) && AtMostOneChannel(Next(w, request).stores)
  {
    hide ChatAfter;
    hide ListAfter;
    hide StalesAfter;
    hide SavedBy;
    hide InOnly;
    hide Detached;
    hide Dropped;
    hide Linked;
    hide AtMostOneChannel;
    var s := w.stores;
    StoresAfter(w, request);
    match request {
      case ConnectRequest(username, newClient, now) => NewClientKeepsLinks(s, username, newClient, now);
      case JoinRequest(client, channel, others) =>
        if client in s.clients.byId && channel in s.repo.byId {
          InOnlyKeepsLinks(s, client, channel);
        }
      case JoinByNameRequest(client, name, others) =>
        if client in s.clients.byId && NamedChannel(s, name).Ok? {
          LinkedKeys(s, client, NamedChannel(s, name).value.id);
          InOnlyKeepsLinks(s, client, NamedChannel(s, name).value.id);
        }
      case LeaveRequest(client, channel) =>
        if IsMember(s, client, channel) && client in s.clients.byId {
          DetachedKeepsLinks(s, client, {channel});
        }
      case DisconnectRequest(client, channels) => DroppedKeepsLinks(s, {client});
      case ExpireRequest(deadline, doomed) => DroppedKeepsLinks(s, s.clients.Expired(deadline));
      case HeartbeatRequest(client, now) => HeartbeatKeepsLinks(s, client, now);
      case CreateRequest(client, name, newChannel) => CreateKeepsLinks(s, client, name, newChannel);
      case SendRequest(_, _, _, _, _, _) => SendKeepsLinks(s, request);
      case _ =>
    }
  }

  lemma StepKeepsInv(w: World, request: Request)
    requires Inv(w) && Admissible(w, request)
    ensures Inv(Next(w, request))
  {
    StoresKeepLinks(w, request);
    DeliveriesKeepInv(w.chat, Execute(w.stores, request).calls, w.stores.clients.historical);
    ListDeliveriesKeepInv(w.list, Execute(w.stores, request).calls);
  }

  // In every state of every run: a client is in a channel's member set exactly
  // when it has a live session that joined the channel, both indexes are exact,
  // and no session is in two channels.
  lemma {:induction false} RunKeepsInv(cap: nat, worlds: seq<World>, requests: seq<Request>, n: nat)
    requires Run(cap, worlds, requests) && n < |worlds|
    ensures Inv(worlds[n])
    decreases n
  {
    if n > 0 {
      hide Next;
      hide Admissible;
      RunKeepsInv(cap, worlds, requests, n - 1);
      assert worlds[n - 1 + 1] == Next(worlds[n - 1], requests[n - 1]);
      StepKeepsInv(worlds[n - 1], requests[n - 1]);
    }
  }

  // ----- Names and buffers over a run -----

  // The store holds the tail of each channel's log; all message ids differ; and
  // the name of every sender is on record.
  ghost predicate HistoryInv(cap: nat, w: World) {
    && w.stores.messages == SaveAll(Empty(cap), w.saves)
    && DistinctIds(w.saves)
    && (forall m :: m in w.saves ==> m.sender in w.stores.clients.historical)
  }

  lemma StepKeepsNames(w: World, request: Request)
    requires Inv(w) && Admissible(w, request)
    ensures forall c :: c in w.stores.clients.historical ==>
      && c in Next(w, request).stores.clients.historical
      && Next(w, request).stores.clients.historical[c] == w.stores.clients.historical[c]
  {
    hide ChatAfter;
    hide ListAfter;
    StoresAfter(w, request);
  }

  lemma SendSaves(w: World, request: Request)
    requires request.SendRequest?
    ensures var saved, messages := SavedBy(w.stores, request), Next(w, request).stores.messages;
      || (saved == [] && messages == w.stores.messages)
      || (|saved| == 1 && messages == w.stores.messages.Save(saved[0])
          && saved[0].id == request.newMessage && saved[0].channel == request.channel
          && saved[0].sender == request.client && IsMember(w.stores, request.client, request.channel)
          && request.client in w.stores.clients.byId)
  {
    hide ChatAfter; hide ListAfter; hide StalesAfter; hide Buffers.Save; hide Text.CreateContent; hide PublishCalls;
  }

  lemma NothingElseSaves(w: World, request: Request)
    requires Inv(w) && Admissible(w, request) && !request.SendRequest?
    ensures SavedBy(w.stores, request) == [] && Next(w, request).stores.messages == w.stores.messages
  {
    hide ChatAfter; hide ListAfter; hide StalesAfter; hide Linked; hide Join; hide JoinByName; hide Leave;
    hide Disconnect;
    hide Sweep; hide Text.CreateContent;
    StoresAfter(w, request);
  }

  lemma MessagesAfter(w: World, request: Request)
    requires Inv(w) && Admissible(w, request)
    ensures var saved, messages := SavedBy(w.stores, request), Next(w, request).stores.messages;
      || (saved == [] && messages == w.stores.messages)
      || (|saved| == 1 && messages == w.stores.messages.Save(saved[0])
          && request.SendRequest? && saved[0].id == request.newMessage && saved[0].channel == request.channel
          && saved[0].sender == request.client && IsMember(w.stores, request.client, request.channel)
          && request.client in w.stores.clients.byId)
  {
    hide SavedBy; hide Next; hide Inv; hide Admissible;
    if request.SendRequest? {
      SendSaves(w, request);
    } else {
      NothingElseSaves(w, request);
    }
  }

  lemma HistoryGrows(cap: nat, w: World, w': World, saved: seq<Message>)
    requires HistoryInv(cap, w) && w'.saves == w.saves + saved
    requires w.stores.clients.historical.Keys <= w'.stores.clients.historical.Keys
    requires || (saved == [] && w'.stores.messages == w.stores.messages)
      || (|saved| == 1 && w'.stores.messages == w.stores.messages.Save(saved[0])
          && FreshMessage(w.saves, saved[0].id) && saved[0].sender in w.stores.clients.historical)
    ensures HistoryInv(cap, w')
  {
    hide Buffers.Save;
    if saved == [] {
      assert w'.saves == w.saves;
    } else {
      OneMoreSave(cap, w.saves, saved[0]);
      assert w'.saves == w.saves + [saved[0]];
      hide SaveAll; hide DistinctIds;
    }
  }

  lemma StepKeepsHistory(cap: nat, w: World, request: Request)
    requires Inv(w) && Admissible(w, request) && HistoryInv(cap, w)
    ensures HistoryInv(cap, Next(w, request))
  {
    hide ChatAfter; hide ListAfter; hide StalesAfter; hide Execute; hide SavedBy;
    hide Inv; hide HistoryInv; hide FreshMessage; hide Buffers.Save;
    LiveIsOnRecord(w);
    StepKeepsNames(w, request);
    MessagesAfter(w, request);
    HistoryGrows(cap, w, Next(w, request), SavedBy(w.stores, request));
  }

  lemma LiveIsOnRecord(w: World)
    requires Inv(w)
    ensures forall c :: c in w.stores.clients.byId ==> c in w.stores.clients.historical
  {
  }

  lemma OneMoreSave(cap: nat, saves: seq<Message>, message: Message)
    requires DistinctIds(saves) && FreshMessage(saves, message.id)
    ensures SaveAll(Empty(cap), saves + [message]) == SaveAll(Empty(cap), saves).Save(message)
    ensures DistinctIds(saves + [message])
  {
    assert (saves + [message])[..|saves|] == saves;
  }

  lemma {:induction false} RunKeepsHistory(cap: nat, worlds: seq<World>, requests: seq<Request>, n: nat)
    requires Run(cap, worlds, requests) && n < |worlds|
    ensures HistoryInv(cap, worlds[n])
    decreases n
  {
    if n > 0 {
      hide Next;
      hide Admissible;
      hide HistoryInv;
      RunKeepsHistory(cap, worlds, requests, n - 1);
      RunKeepsInv(cap, worlds, requests, n - 1);
      assert worlds[n - 1 + 1] == Next(worlds[n - 1], requests[n - 1]);
      StepKeepsHistory(cap, worlds[n - 1], requests[n - 1]);
    }
  }

  // A name once on record stays, whatever becomes of the client: disconnect,
  // expiry, or another client taking the same username.
  lemma {:induction false} NamesStay(cap: nat, worlds: seq<World>, requests: seq<Request>, i: nat, j: nat,
                                     client: ClientId)
    requires Run(cap, worlds, requests) && i <= j < |worlds|
    requires client in worlds[i].stores.clients.byId
    ensures worlds[j].stores.clients.LookupUsername(client) == Ok(worlds[i].stores.clients.byId[client].username)
    decreases j
  {
    hide Next;
    hide Start;
    hide Admissible;
    if i == j {
      RunKeepsInv(cap, worlds, requests, i);
    } else {
      NamesStay(cap, worlds, requests, i, j - 1, client);
      RunKeepsInv(cap, worlds, requests, j - 1);
      assert worlds[j - 1 + 1] == Next(worlds[j - 1], requests[j - 1]);
      StepKeepsNames(worlds[j - 1], requests[j - 1]);
    }
  }

  lemma {:induction false} SenderWasLive(cap: nat, worlds: seq<World>, requests: seq<Request>, j: nat, m: Message)
    returns (i: nat)
    requires Run(cap, worlds, requests) && j < |worlds| && m in worlds[j].saves
    ensures i <= j && m.sender in worlds[i].stores.clients.byId
    decreases j
  {
    if j == 0 {
      assert false;
    } else if m in worlds[j - 1].saves {
      i := SenderWasLive(cap, worlds, requests, j - 1, m);
    } else {
      hide Admissible;
      i := j - 1;
      assert worlds[j - 1 + 1] == Next(worlds[j - 1], requests[j - 1]);
      assert m in SavedBy(worlds[i].stores, requests[i]);
    }
  }

  lemma {:induction false} BufferedWasSaved(buffers: Buffers, saves: seq<Message>, channel: ChannelId, cap: nat,
                                            m: Message)
    requires buffers == SaveAll(Empty(cap), saves) && m in buffers.Of(channel)
    ensures m in saves && m.channel == channel
  {
    RingBufferKeepsTail(cap, saves, channel);
    SentToIsSaved(saves, channel);
  }

  // For every message in any buffer, looking its sender up gives the name under
  // which the sender was registered when it was live.
  lemma BufferedSenderHasName(cap: nat, worlds: seq<World>, requests: seq<Request>, j: nat, channel: ChannelId,
                              m: Message)
    returns (i: nat)
    requires Run(cap, worlds, requests) && j < |worlds|
    requires m in worlds[j].stores.messages.Of(channel)
    ensures i <= j && m.sender in worlds[i].stores.clients.byId
    ensures worlds[j].stores.clients.LookupUsername(m.sender)
      == Ok(worlds[i].stores.clients.byId[m.sender].username)
  {
    RunKeepsHistory(cap, worlds, requests, j);
    BufferedWasSaved(worlds[j].stores.messages, worlds[j].saves, channel, cap, m);
    i := SenderWasLive(cap, worlds, requests, j, m);
    NamesStay(cap, worlds, requests, i, j, m.sender);
  }
}

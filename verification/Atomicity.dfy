/**
 A task that runs alone does what its use case does as one atomic step. With the
 independence of requests that share nothing this means: however their sections
 interleave, the outcome is that of the atomic use cases, in any order.
 */
module Atomicity {
  import opened Core
  import opened ChannelRepository
  import opened ClientRegistry
  import opened UseCases
  import opened Sections
  import opened Tasks
  import opened Independence
  import Membership
  import Runs
  import Text

  // ----- The atomic form of every request -----

  ghost function JoinOrder(s: Stores, client: ClientId, channel: ChannelId, walk: seq<ChannelId>): seq<ChannelId> {
    if client in s.clients.byId then InOrder(walk, s.clients.byId[client].joined - {channel}) else []
  }

  ghost function JoinByNameOrder(s: Stores, client: ClientId, name: string, walk: seq<ChannelId>): seq<ChannelId> {
    var valid := Text.CreateChannelName(Text.Trim(name));
    if valid.Some? && s.repo.FindByName(valid.value).Ok?
    then JoinOrder(s, client, s.repo.FindByName(valid.value).value.id, walk)
    else []
  }

  ghost function DisconnectOrder(s: Stores, client: ClientId, walk: seq<ChannelId>): seq<ChannelId> {
    if client in s.clients.byId then InOrder(walk, s.clients.byId[client].joined) else []
  }

  function Answered(result: Result<Unit>): Answer {
    Answer(if result.Ok? then Ok(Nothing) else Err(result.error))
  }

  ghost function Atomically(s: Stores, request: Request): Alone {
    match request
    case Connect(name, newClient, now) =>
      var o := UseCases.Connect(s, name, newClient, now);
      Alone(o.stores, Done(Answer(if o.result.Ok? then Ok(NewClient(o.result.value)) else Err(o.result.error))))
    case Heartbeat(client, now) =>
      var o := UseCases.Heartbeat(s, client, now);
      Alone(o.stores, Done(Answered(o.result)))
    case CreateChannel(client, name, newChannel) =>
      var o := UseCases.CreateChannel(s, client, name, newChannel);
      Alone(o.stores, Done(Answer(if o.result.Ok? then Ok(NewChannel(o.result.value)) else Err(o.result.error))))
    case JoinChannel(client, channel, walk) =>
      var o := UseCases.Join(s, client, channel, JoinOrder(s, client, channel, walk));
      Alone(o.stores, Done(Answered(o.result)))
    case JoinChannelByName(client, name, walk) =>
      var o := UseCases.JoinByName(s, client, name, JoinByNameOrder(s, client, name, walk));
      Alone(o.stores, Done(Answer(if o.result.Ok? then Ok(Nothing) else Err(o.result.error))))
    case LeaveChannel(client, channel) =>
      var o := UseCases.Leave(s, client, channel);
      Alone(o.stores, Done(Answered(o.result)))
    case SendMessage(client, channel, content, newMessage, now) =>
      var o := UseCases.Send(s, client, channel, content, newMessage, now, []);
      Alone(o.stores, Done(Answer(
        if o.result.Ok? then Ok(NewMessage(o.result.value, s.repo.byId[channel].members)) else Err(o.result.error))))
    case Disconnect(client, walk) =>
      var o := UseCases.Disconnect(s, client, DisconnectOrder(s, client, walk));
      Alone(o.stores, Done(Answered(o.result)))
    case Expire(deadline, order, walks) =>
      Alone(UseCases.Sweep(s, AllDoomed(CopiesOfExpired(s.clients, deadline, order), walks)).0, Succeed(Nothing))
  }

  ghost function AllDoomed(sessions: seq<SessionRecord>, walks: Walks): (doomed: seq<Doomed>)
    ensures |doomed| == |sessions|
  {
    seq(|sessions|, i requires 0 <= i < |sessions| => Doomed(sessions[i], ChannelOrder(sessions[i], walks)))
  }

  // ----- Reaching -----

  ghost predicate Reaches(a: Alone, b: Alone) {
    exists n :: RunAlone(a, n) == b
  }

  lemma InSteps(a: Alone, n: nat, b: Alone)
    requires RunAlone(a, n) == b
    ensures Reaches(a, b)
  {
  }

  lemma OneStep(a: Alone)
    ensures Reaches(a, StepAlone(a))
  {
    InSteps(a, 1, StepAlone(a)) by { assert RunAlone(a, 0) == a; }
  }

  lemma NoStep(a: Alone)
    ensures Reaches(a, a)
  {
    InSteps(a, 0, a);
  }

  lemma Then(a: Alone, b: Alone, c: Alone)
    requires Reaches(a, b) && Reaches(b, c)
    ensures Reaches(a, c)
  {
    var m: nat :| RunAlone(a, m) == b;
    var n: nat :| RunAlone(b, n) == c;
    RunAloneAdds(a, m, n);
    InSteps(a, m + n, c);
  }

  // ----- Removing and leaving -----

  lemma RemoveReaches(s: Stores, session: SessionRecord, channel: ChannelId, remover: Remover)
    ensures var o := RemoveMemberAndBroadcast(s, session, channel);
      Reaches(Alone(s, StartRemove(session, channel, remover)),
              Alone(o.stores, AfterRemove(session, channel, remover, o.result)))
  {
    hide Reaches; hide AfterRemove;
    var a := Alone(s, StartRemove(session, channel, remover));
    OneStep(a);
    if s.repo.Find(channel).Ok? && session.id in s.repo.Find(channel).value.members {
      OneStep(StepAlone(a));
      Then(a, StepAlone(a), StepAlone(StepAlone(a)));
    }
  }

  ghost predicate KeyedAt(s: Stores, client: ClientId) {
    client in s.clients.byId ==> s.clients.byId[client].id == client
  }

  lemma LeaveReaches(s: Stores, client: ClientId, channel: ChannelId, caller: Caller)
    requires KeyedAt(s, client)
    ensures var o := UseCases.Leave(s, client, channel);
      && Reaches(Alone(s, StartLeave(client, channel, caller)), Alone(o.stores, AfterLeave(client, caller, o.result)))
      && KeyedAt(o.stores, client)
  {
    hide Reaches; hide AfterLeave; hide RemoveMemberAndBroadcast;
    var a := Alone(s, StartLeave(client, channel, caller));
    OneStep(a);
    if s.clients.Find(client).Ok? {
      var session := s.clients.byId[client];
      var o := RemoveMemberAndBroadcast(s, session, channel);
      RemovalKeepsClients(s, session, channel);
      var b := Alone(o.stores, AfterRemove(session, channel, Leaving(caller), o.result));
      RemoveReaches(s, session, channel, Leaving(caller));
      Then(a, StepAlone(a), b);
      if o.result.Ok? {
        OneStep(b);
        OneStep(StepAlone(b));
        Then(b, StepAlone(b), StepAlone(StepAlone(b)));
        Then(a, b, StepAlone(StepAlone(b)));
      }
    }
  }

  lemma RemovalKeepsClients(s: Stores, session: SessionRecord, channel: ChannelId)
    ensures RemoveMemberAndBroadcast(s, session, channel).stores.clients == s.clients
  {
  }

  // The loops of the use cases are written back to front, those of the tasks
  // front to back.
  lemma {:induction false} LeaveEachFront(s: Stores, client: ClientId, channels: seq<ChannelId>)
    requires channels != []
    ensures LeaveEach(s, client, channels).0
      == LeaveEach(UseCases.Leave(s, client, channels[0]).stores, client, channels[1..]).0
  {
    hide UseCases.Leave;
    var init := channels[..|channels| - 1];
    if init == [] {
      assert LeaveEach(s, client, init).0 == s;
    } else {
      LeaveEachFront(s, client, init);
      assert channels[1..][..|channels| - 2] == init[1..];
    }
  }

  lemma {:induction false} LeaveEachReaches(s: Stores, client: ClientId, channels: seq<ChannelId>)
    requires KeyedAt(s, client)
    ensures Reaches(Alone(s, LeaveNextOrRemove(client, channels)),
                    Alone(LeaveEach(s, client, channels).0, LeaveNextOrRemove(client, [])))
    decreases |channels|
  {
    hide Reaches; hide UseCases.Leave; hide KeyedAt;
    var a := Alone(s, LeaveNextOrRemove(client, channels));
    if channels == [] {
      NoStep(a);
    } else {
      var left := UseCases.Leave(s, client, channels[0]).stores;
      LeaveReaches(s, client, channels[0], ByDisconnect(channels[1..]));
      LeaveEachReaches(left, client, channels[1..]);
      LeaveEachFront(s, client, channels);
      Then(a, Alone(left, LeaveNextOrRemove(client, channels[1..])),
           Alone(LeaveEach(s, client, channels).0, LeaveNextOrRemove(client, [])));
    }
  }

  // ----- Joining -----

  lemma LeaveOneReaches(s: Stores, session: SessionRecord, target: ChannelRecord, others: seq<ChannelId>)
    requires others != []
    ensures Reaches(Alone(s, LeaveOthersOrEnter(session, target, others)),
                    Alone(LeaveOne(s, session, others[0]).stores, LeaveOthersOrEnter(session, target, others[1..])))
  {
    hide Reaches; hide RemoveMemberAndBroadcast;
    var remover := Joining(target, others[1..]);
    var a := Alone(s, StartRemove(session, others[0], remover));
    var o := RemoveMemberAndBroadcast(s, session, others[0]);
    var b := Alone(o.stores, AfterRemove(session, others[0], remover, o.result));
    RemoveReaches(s, session, others[0], remover);
    OneStep(b);
    OneStep(StepAlone(b));
    Then(b, StepAlone(b), StepAlone(StepAlone(b)));
    Then(a, b, StepAlone(StepAlone(b)));
  }

  lemma {:induction false} LeaveOthersFront(s: Stores, session: SessionRecord, others: seq<ChannelId>)
    requires others != []
    ensures LeaveOtherChannels(s, session, others).stores
      == LeaveOtherChannels(LeaveOne(s, session, others[0]).stores, session, others[1..]).stores
  {
    hide LeaveOne;
    var init := others[..|others| - 1];
    if init == [] {
      assert LeaveOtherChannels(s, session, init).stores == s;
    } else {
      LeaveOthersFront(s, session, init);
      assert others[1..][..|others| - 2] == init[1..];
    }
  }

  lemma {:induction false} LeaveOthersReaches(s: Stores, session: SessionRecord, target: ChannelRecord,
                                              others: seq<ChannelId>)
    ensures Reaches(Alone(s, LeaveOthersOrEnter(session, target, others)),
                    Alone(LeaveOtherChannels(s, session, others).stores, LeaveOthersOrEnter(session, target, [])))
    decreases |others|
  {
    hide Reaches; hide LeaveOne; hide LeaveOthersOrEnter;
    var a := Alone(s, LeaveOthersOrEnter(session, target, others));
    if others == [] {
      NoStep(a);
    } else {
      var left := LeaveOne(s, session, others[0]).stores;
      LeaveOneReaches(s, session, target, others);
      LeaveOthersReaches(left, session, target, others[1..]);
      LeaveOthersFront(s, session, others);
      Then(a, Alone(left, LeaveOthersOrEnter(session, target, others[1..])),
           Alone(LeaveOtherChannels(s, session, others).stores, LeaveOthersOrEnter(session, target, [])));
    }
  }

  lemma EnterReaches(s: Stores, session: SessionRecord, target: ChannelRecord)
    ensures var o := Enter(s, session, target);
      Reaches(Alone(s, LeaveOthersOrEnter(session, target, [])), Alone(o.stores, Done(Answered(o.result))))
  {
    hide Reaches;
    var a := Alone(s, LeaveOthersOrEnter(session, target, []));
    OneStep(a);
    if session.id !in target.members {
      OneStep(StepAlone(a));
      Then(a, StepAlone(a), StepAlone(StepAlone(a)));
    }
  }

  lemma JoinLoadedReaches(s: Stores, session: SessionRecord, target: ChannelRecord, others: seq<ChannelId>)
    ensures var o := JoinLoaded(s, session, target, others);
      Reaches(Alone(s, LeaveOthersOrEnter(session, target, others)), Alone(o.stores, Done(Answered(o.result))))
  {
    hide Reaches; hide LeaveOthersOrEnter; hide Enter; hide LeaveOtherChannels;
    var left := LeaveOtherChannels(s, session, others).stores;
    var o := Enter(left, session, target);
    LeaveOthersReaches(s, session, target, others);
    EnterReaches(left, session, target);
    Then(Alone(s, LeaveOthersOrEnter(session, target, others)), Alone(left, LeaveOthersOrEnter(session, target, [])),
         Alone(o.stores, Done(Answered(o.result))));
  }

  lemma JoinReaches(s: Stores, client: ClientId, channel: ChannelId, walk: seq<ChannelId>)
    requires KeyedAt(s, client) && (channel in s.repo.byId ==> s.repo.byId[channel].id == channel)
    ensures Reaches(Alone(s, Start(JoinChannel(client, channel, walk))),
                    Atomically(s, JoinChannel(client, channel, walk)))
  {
    hide Reaches; hide LeaveOthersOrEnter; hide JoinLoaded;
    var a := Alone(s, Start(JoinChannel(client, channel, walk)));
    OneStep(a);
    if s.clients.Find(client).Ok? {
      OneStep(StepAlone(a));
      Then(a, StepAlone(a), StepAlone(StepAlone(a)));
      if s.repo.Find(channel).Ok? {
        JoinLoadedReaches(s, s.clients.byId[client], s.repo.byId[channel], JoinOrder(s, client, channel, walk));
        Then(a, StepAlone(StepAlone(a)), Atomically(s, JoinChannel(client, channel, walk)));
      }
    }
  }

  lemma JoinByNameReaches(s: Stores, client: ClientId, name: string, walk: seq<ChannelId>)
    ensures Reaches(Alone(s, Start(JoinChannelByName(client, name, walk))),
                    Atomically(s, JoinChannelByName(client, name, walk)))
  {
    hide Reaches; hide LeaveOthersOrEnter; hide JoinLoaded; hide Text.CreateChannelName; hide Text.Trim;
    var a := Alone(s, Start(JoinChannelByName(client, name, walk)));
    OneStep(a);
    var valid := Text.CreateChannelName(Text.Trim(name));
    if s.clients.Find(client).Ok? && valid.Some? {
      OneStep(StepAlone(a));
      Then(a, StepAlone(a), StepAlone(StepAlone(a)));
      var found := s.repo.FindByName(valid.value);
      if found.Ok? {
        JoinLoadedReaches(s, s.clients.byId[client], found.value, JoinByNameOrder(s, client, name, walk));
        Then(a, StepAlone(StepAlone(a)), Atomically(s, JoinChannelByName(client, name, walk)));
      }
    }
  }

  // ----- The sweep -----

  lemma {:induction false} RemoveFromEachFront(s: Stores, session: SessionRecord, channels: seq<ChannelId>)
    requires channels != []
    ensures RemoveFromEach(s, session, channels).0
      == RemoveFromEach(RemoveMemberAndBroadcast(s, session, channels[0]).stores, session, channels[1..]).0
  {
    hide RemoveMemberAndBroadcast;
    var init := channels[..|channels| - 1];
    if init == [] {
      assert RemoveFromEach(s, session, init).0 == s;
    } else {
      RemoveFromEachFront(s, session, init);
      assert channels[1..][..|channels| - 2] == init[1..];
    }
  }

  lemma {:induction false} ExpireChannelsReaches(s: Stores, session: SessionRecord, channels: seq<ChannelId>,
                                                 sessions: seq<SessionRecord>, walks: Walks)
    ensures Reaches(Alone(s, ExpireNextChannel(session, channels, sessions, walks)),
                    Alone(RemoveFromEach(s, session, channels).0, ExpireNextChannel(session, [], sessions, walks)))
    decreases |channels|
  {
    hide Reaches; hide RemoveMemberAndBroadcast;
    var a := Alone(s, ExpireNextChannel(session, channels, sessions, walks));
    if channels == [] {
      NoStep(a);
    } else {
      var removed := RemoveMemberAndBroadcast(s, session, channels[0]).stores;
      RemoveReaches(s, session, channels[0], Expiring(channels[1..], sessions, walks));
      ExpireChannelsReaches(removed, session, channels[1..], sessions, walks);
      RemoveFromEachFront(s, session, channels);
      Then(a, Alone(removed, ExpireNextChannel(session, channels[1..], sessions, walks)),
           Alone(RemoveFromEach(s, session, channels).0, ExpireNextChannel(session, [], sessions, walks)));
    }
  }

  lemma {:induction false} SweepFront(s: Stores, doomed: seq<Doomed>)
    requires doomed != []
    ensures Sweep(s, doomed).0 == Sweep(ExpireOne(s, doomed[0]).0, doomed[1..]).0
  {
    hide ExpireOne;
    var init := doomed[..|doomed| - 1];
    if init == [] {
      assert Sweep(s, init).0 == s;
    } else {
      SweepFront(s, init);
      assert doomed[1..][..|doomed| - 2] == init[1..];
    }
  }

  lemma SweepOne(s: Stores, sessions: seq<SessionRecord>, walks: Walks)
    requires sessions != []
    ensures var one := ExpireOne(s, Doomed(sessions[0], ChannelOrder(sessions[0], walks))).0;
      Reaches(Alone(s, ExpireNextSession(sessions, walks)), Alone(one, ExpireNextSession(sessions[1..], walks)))
  {
    hide Reaches; hide RemoveFromEach;
    var session, rest, order := sessions[0], sessions[1..], ChannelOrder(sessions[0], walks);
    var b := Alone(RemoveFromEach(s, session, order).0, ExpireNextChannel(session, [], rest, walks));
    ExpireChannelsReaches(s, session, order, rest, walks);
    OneStep(b);
    Then(Alone(s, ExpireNextSession(sessions, walks)), b, StepAlone(b));
  }

  lemma SweepSplits(s: Stores, sessions: seq<SessionRecord>, walks: Walks)
    requires sessions != []
    ensures Sweep(s, AllDoomed(sessions, walks)).0
      == Sweep(ExpireOne(s, Doomed(sessions[0], ChannelOrder(sessions[0], walks))).0, AllDoomed(sessions[1..], walks)).0
  {
    hide Sweep; hide ExpireOne;
    assert AllDoomed(sessions, walks)[1..] == AllDoomed(sessions[1..], walks);
    SweepFront(s, AllDoomed(sessions, walks));
  }

  lemma {:induction false} SweepReaches(s: Stores, sessions: seq<SessionRecord>, walks: Walks)
    ensures Reaches(Alone(s, ExpireNextSession(sessions, walks)),
                    Alone(Sweep(s, AllDoomed(sessions, walks)).0, Succeed(Nothing)))
    decreases |sessions|
  {
    var a := Alone(s, ExpireNextSession(sessions, walks));
    if sessions == [] {
      assert AllDoomed(sessions, walks) == [];
      NoStep(a);
    } else {
      hide *;
      var one := ExpireOne(s, Doomed(sessions[0], ChannelOrder(sessions[0], walks))).0;
      SweepOne(s, sessions, walks);
      SweepSplits(s, sessions, walks);
      SweepReaches(one, sessions[1..], walks);
      Then(a, Alone(one, ExpireNextSession(sessions[1..], walks)),
           Alone(Sweep(s, AllDoomed(sessions, walks)).0, Succeed(Nothing)));
    }
  }

  // ----- Every request -----

  // The records that a request finds by id carry that id.
  ghost predicate KeyedFor(s: Stores, request: Request) {
    match request
    case JoinChannel(client, channel, _) =>
      KeyedAt(s, client) && (channel in s.repo.byId ==> s.repo.byId[channel].id == channel)
    case LeaveChannel(client, _) => KeyedAt(s, client)
    case Disconnect(client, _) => KeyedAt(s, client)
    case _ => true
  }

  lemma DisconnectReaches(s: Stores, client: ClientId, walk: seq<ChannelId>)
    requires KeyedAt(s, client)
    ensures Reaches(Alone(s, Start(Request.Disconnect(client, walk))), Atomically(s, Request.Disconnect(client, walk)))
  {
    hide Reaches; hide LeaveEach; hide AfterRemove; hide LeaveOthersOrEnter; hide AfterLeave; hide ExpireNextSession;
    var a := Alone(s, Start(Request.Disconnect(client, walk)));
    OneStep(a);
    if s.clients.Find(client).Ok? {
      var order := DisconnectOrder(s, client, walk);
      var b := Alone(LeaveEach(s, client, order).0, LeaveNextOrRemove(client, []));
      LeaveEachReaches(s, client, order);
      Then(a, StepAlone(a), b);
      OneStep(b);
      Then(a, b, StepAlone(b));
    }
  }

  lemma CreateReaches(s: Stores, client: ClientId, name: string, newChannel: ChannelId)
    ensures Reaches(Alone(s, Start(Request.CreateChannel(client, name, newChannel))),
                    Atomically(s, Request.CreateChannel(client, name, newChannel)))
  {
    hide Reaches; hide Text.CreateChannelName; hide Text.Trim;
    var a := Alone(s, Start(Request.CreateChannel(client, name, newChannel)));
    OneStep(a);
    if s.clients.Find(client).Ok? && Text.CreateChannelName(Text.Trim(name)).Some? {
      OneStep(StepAlone(a));
      Then(a, StepAlone(a), StepAlone(StepAlone(a)));
    }
  }

  lemma RoomReaches(s: Stores, client: ClientId, channel: ChannelId, content: string, newMessage: MessageId, now: int)
    requires client in s.clients.byId
    ensures Reaches(Alone(s, Running(FindChannel(channel), RoomFound(client, channel, content, newMessage, now))),
                    Atomically(s, SendMessage(client, channel, content, newMessage, now)))
  {
    hide Reaches; hide Text.CreateContent;
    var a := Alone(s, Running(FindChannel(channel), RoomFound(client, channel, content, newMessage, now)));
    OneStep(a);
    if StepAlone(a).task.Running? {
      OneStep(StepAlone(a));
      Then(a, StepAlone(a), StepAlone(StepAlone(a)));
    }
  }

  lemma SendReaches(s: Stores, client: ClientId, channel: ChannelId, content: string, newMessage: MessageId, now: int)
    ensures Reaches(Alone(s, Start(SendMessage(client, channel, content, newMessage, now))),
                    Atomically(s, SendMessage(client, channel, content, newMessage, now)))
  {
    hide Reaches; hide Text.CreateContent;
    var a := Alone(s, Start(SendMessage(client, channel, content, newMessage, now)));
    OneStep(a);
    if client in s.clients.byId {
      RoomReaches(s, client, channel, content, newMessage, now);
      Then(a, StepAlone(a), Atomically(s, SendMessage(client, channel, content, newMessage, now)));
    }
  }

  lemma ConnectReaches(s: Stores, name: string, newClient: ClientId, now: int)
    ensures Reaches(Alone(s, Start(Request.Connect(name, newClient, now))),
                    Atomically(s, Request.Connect(name, newClient, now)))
  {
    hide Reaches; hide Text.CreateUsername; hide Text.Trim;
    var a := Alone(s, Start(Request.Connect(name, newClient, now)));
    OneStep(a);
    NoStep(a);
  }

  lemma HeartbeatReaches(s: Stores, client: ClientId, now: int)
    ensures Reaches(Alone(s, Start(Request.Heartbeat(client, now))), Atomically(s, Request.Heartbeat(client, now)))
  {
    hide Reaches;
    OneStep(Alone(s, Start(Request.Heartbeat(client, now))));
  }

  lemma ExpireReaches(s: Stores, deadline: int, order: seq<ClientId>, walks: Walks)
    ensures Reaches(Alone(s, Start(Expire(deadline, order, walks))), Atomically(s, Expire(deadline, order, walks)))
  {
    hide Reaches; hide Sweep; hide ExpireNextSession;
    var a := Alone(s, Start(Expire(deadline, order, walks)));
    var sessions := CopiesOfExpired(s.clients, deadline, order);
    OneStep(a);
    SweepReaches(s, sessions, walks);
    Then(a, StepAlone(a), Atomically(s, Expire(deadline, order, walks)));
  }

  // A task that nobody interrupts ends with the stores and the answer of its use
  // case run as one step.
  lemma TaskIsUseCase(s: Stores, request: Request) returns (n: nat)
    requires KeyedFor(s, request)
    ensures RunAlone(Alone(s, Start(request)), n) == Atomically(s, request)
  {
    assert Reaches(Alone(s, Start(request)), Atomically(s, request)) by {
      hide Reaches; hide Atomically; hide Start;
      match request {
        case Connect(name, newClient, now) => ConnectReaches(s, name, newClient, now);
        case Heartbeat(client, now) => HeartbeatReaches(s, client, now);
        case CreateChannel(client, name, newChannel) => CreateReaches(s, client, name, newChannel);
        case JoinChannel(client, channel, walk) => JoinReaches(s, client, channel, walk);
        case JoinChannelByName(client, name, walk) => JoinByNameReaches(s, client, name, walk);
        case LeaveChannel(client, channel) =>
          LeaveReaches(s, client, channel, ByRequest);
          AtomicLeave(s, client, channel);
        case SendMessage(client, channel, content, newMessage, now) =>
          SendReaches(s, client, channel, content, newMessage, now);
        case Disconnect(client, walk) => DisconnectReaches(s, client, walk);
        case Expire(deadline, order, walks) => ExpireReaches(s, deadline, order, walks);
      }
    }
    n :| RunAlone(Alone(s, Start(request)), n) == Atomically(s, request);
  }

  lemma AtomicLeave(s: Stores, client: ClientId, channel: ChannelId)
    ensures var o := UseCases.Leave(s, client, channel);
      Atomically(s, LeaveChannel(client, channel)) == Alone(o.stores, AfterLeave(client, ByRequest, o.result))
    ensures Start(LeaveChannel(client, channel)) == StartLeave(client, channel, ByRequest)
  {
    hide UseCases.Leave;
  }

  // ----- Independent requests, interleaved in any way -----

  ghost function Fresh(s: Stores, requests: map<Tid, Request>): System {
    System(s, map t | t in requests :: Start(requests[t]))
  }

  // No two requests share a client, username, channel or channel name.
  ghost predicate Separate(s: Stores, requests: map<Tid, Request>, fps: map<Tid, Footprint>) {
    && requests.Keys == fps.Keys
    && (forall t :: t in fps ==> Closed(s, fps[t]) && RequestWithin(requests[t], fps[t]))
    && (forall t, u :: t in fps && u in fps && t != u ==> Disjoint(fps[t], fps[u]))
  }

  lemma SeparateIsIndependent(s: Stores, requests: map<Tid, Request>, fps: map<Tid, Footprint>)
    requires Separate(s, requests, fps)
    ensures Independent(Fresh(s, requests), fps)
  {
    hide RequestWithin; hide TaskWithin; hide Closed; hide Start;
    forall t | t in fps ensures TaskWithin(Start(requests[t]), fps[t]) {
      StartWithin(requests[t], fps[t]);
    }
  }

  // The requests as atomic steps, one after another.
  ghost function OneByOne(s: Stores, requests: map<Tid, Request>, order: seq<Tid>): System
    requires forall t :: t in order ==> t in requests
  {
    if order == [] then Fresh(s, requests)
    else
      var before := OneByOne(s, requests, order[..|order| - 1]);
      var t := order[|order| - 1];
      var a := Atomically(before.stores, requests[t]);
      System(a.stores, before.tasks[t := a.task])
  }

  lemma {:induction false} AfterBoth(sys: System, p: seq<Tid>, q: seq<Tid>)
    ensures After(sys, p + q) == After(After(sys, p), q)
    decreases |q|
  {
    hide Move;
    if q == [] {
      assert p + q == p;
    } else {
      AfterBoth(sys, p, q[..|q| - 1]);
      assert (p + q)[..|p + q| - 1] == p + q[..|q| - 1];
    }
  }

  function Repeat(t: Tid, n: nat): seq<Tid> {
    seq(n, _ => t)
  }

  lemma {:induction false} RepeatRunsAlone(sys: System, t: Tid, n: nat)
    requires t in sys.tasks
    ensures var a := RunAlone(Alone(sys.stores, sys.tasks[t]), n);
      After(sys, Repeat(t, n)) == System(a.stores, sys.tasks[t := a.task])
  {
    hide StepAlone;
    if n == 0 {
      assert sys.tasks[t := sys.tasks[t]] == sys.tasks;
    } else {
      RepeatRunsAlone(sys, t, n - 1);
      assert Repeat(t, n)[..n - 1] == Repeat(t, n - 1);
      var a := RunAlone(Alone(sys.stores, sys.tasks[t]), n - 1);
      assert sys.tasks[t := a.task][t := StepAlone(a).task] == sys.tasks[t := StepAlone(a).task];
    }
  }

  lemma {:induction false} NoTurnsForOthers(before: seq<Tid>, t: Tid, n: nat)
    ensures forall u :: u != t ==> Turns(before + Repeat(t, n), u) == Turns(before, u)
  {
    if n == 0 {
      assert before + Repeat(t, 0) == before;
    } else {
      NoTurnsForOthers(before, t, n - 1);
      assert (before + Repeat(t, n))[..|before| + n - 1] == before + Repeat(t, n - 1);
    }
  }

  lemma ClosedKeys(s: Stores, request: Request, f: Footprint)
    requires Closed(s, f) && RequestWithin(request, f)
    ensures KeyedFor(s, request)
  {
  }

  lemma OneMoreRequest(s: Stores, requests: map<Tid, Request>, fps: map<Tid, Footprint>, before: seq<Tid>, t: Tid)
    returns (schedule: seq<Tid>)
    requires Separate(s, requests, fps) && t in requests
    requires t in After(Fresh(s, requests), before).tasks
    requires After(Fresh(s, requests), before).tasks[t] == Start(requests[t])
    ensures var now := After(Fresh(s, requests), before);
      var a := Atomically(now.stores, requests[t]);
      After(Fresh(s, requests), schedule) == System(a.stores, now.tasks[t := a.task])
    ensures forall u :: u != t ==> Turns(schedule, u) == Turns(before, u)
  {
    hide Start; hide Atomically; hide Closed; hide RequestWithin; hide TaskWithin; hide Disjoint; hide Agree;
    hide RunAlone;
    hide After;
    var sys, now := Fresh(s, requests), After(Fresh(s, requests), before);
    SeparateIsIndependent(s, requests, fps);
    EachAsIfAlone(sys, fps, before, t);
    ClosedKeys(now.stores, requests[t], fps[t]);
    var n := TaskIsUseCase(now.stores, requests[t]);
    RepeatRunsAlone(now, t, n);
    schedule := before + Repeat(t, n);
    AfterBoth(sys, before, Repeat(t, n));
    NoTurnsForOthers(before, t, n);
  }

  // Some schedule runs the requests one by one.
  lemma {:induction false} SerialSchedule(s: Stores, requests: map<Tid, Request>, fps: map<Tid, Footprint>,
                                          order: seq<Tid>)
    returns (schedule: seq<Tid>)
    requires Separate(s, requests, fps) && NoDup(order) && forall t :: t in order ==> t in requests
    ensures After(Fresh(s, requests), schedule) == OneByOne(s, requests, order)
    ensures OneByOne(s, requests, order).tasks.Keys == requests.Keys
    ensures forall t :: t in requests && t !in order ==> OneByOne(s, requests, order).tasks[t] == Start(requests[t])
    ensures forall t :: t in order ==> OneByOne(s, requests, order).tasks[t].Done?
    ensures forall t :: t !in order ==> Turns(schedule, t) == 0
    decreases |order|
  {
    hide Start; hide Atomically; hide Separate; hide Move;
    if order == [] {
      schedule := [];
    } else {
      var init, t := order[..|order| - 1], order[|order| - 1];
      assert t in order && t !in init && forall u :: u in order <==> u in init || u == t;
      var before := SerialSchedule(s, requests, fps, init);
      schedule := OneMoreRequest(s, requests, fps, before, t);
      AtomicIsDone(OneByOne(s, requests, init).stores, requests[t]);
    }
  }

  lemma AtomicIsDone(s: Stores, request: Request)
    ensures Atomically(s, request).task.Done?
  {
  }

  // Any complete interleaving of separate requests ends with the stores and the
  // answers of the atomic use cases run one after another, in whichever order.
  lemma SeparateRequestsAreAtomic(s: Stores, requests: map<Tid, Request>, fps: map<Tid, Footprint>,
                                  schedule: seq<Tid>, order: seq<Tid>)
    requires Separate(s, requests, fps) && Enumerates(order, requests.Keys)
    requires Complete(After(Fresh(s, requests), schedule))
    ensures forall t :: t in order ==> t in requests
    ensures After(Fresh(s, requests), schedule) == OneByOne(s, requests, order)
  {
    hide Start; hide Atomically; hide Closed; hide RequestWithin; hide TaskWithin; hide Disjoint; hide OneByOne;
    hide After;
    assert forall t :: t in order <==> t in Elems(order);
    SeparateIsIndependent(s, requests, fps);
    var serial := SerialSchedule(s, requests, fps, order);
    TasksStay(Fresh(s, requests), serial);
    ScheduleDoesNotMatter(Fresh(s, requests), fps, schedule, serial);
  }

  // ----- What requests touch, read off the stores before they start -----

  function SomeName(name: string): set<ChannelName> {
    var valid := Text.CreateChannelName(Text.Trim(name));
    if valid.Some? then {valid.value} else {}
  }

  function SomeUsername(name: string): set<Username> {
    var valid := Text.CreateUsername(Text.Trim(name));
    if valid.Some? then {valid.value} else {}
  }

  function Mentioned(request: Request): Footprint {
    match request
    case Connect(name, newClient, _) => Footprint({newClient}, SomeUsername(name), {}, {})
    case Heartbeat(client, _) => Footprint({client}, {}, {}, {})
    case CreateChannel(client, name, newChannel) => Footprint({client}, {}, {newChannel}, SomeName(name))
    case JoinChannel(client, channel, _) => Footprint({client}, {}, {channel}, {})
    case JoinChannelByName(client, name, _) => Footprint({client}, {}, {}, SomeName(name))
    case LeaveChannel(client, channel) => Footprint({client}, {}, {channel}, {})
    case SendMessage(client, channel, _, _, _) => Footprint({client}, {}, {channel}, {})
    case Disconnect(client, _) => Footprint({client}, {}, {}, {})
    case Expire(_, _, _) => Footprint({}, {}, {}, {})
  }

  // What a request mentions, the channels its client is in and those that bear a
  // mentioned name, and the names of all these.
  function Needs(s: Stores, request: Request): Footprint {
    var f := Mentioned(request);
    var channels := f.channels
      + (set c, id | c in f.clients && c in s.clients.byId && id in s.clients.byId[c].joined :: id)
      + (set name | name in f.names && name in s.repo.idOf :: s.repo.idOf[name]);
    Footprint(f.clients,
              f.usernames + (set c | c in f.clients && c in s.clients.byId :: s.clients.byId[c].username),
              channels,
              f.names + (set id | id in channels && id in s.repo.byId :: s.repo.byId[id].name))
  }

  lemma NeedsAreClosed(s: Stores, request: Request)
    requires s.repo.Inv() && s.clients.Inv()
    ensures Closed(s, Needs(s, request))
  {
    hide Mentioned;
  }

  lemma NeedsSuffice(s: Stores, request: Request)
    requires !request.Expire?
    ensures RequestWithin(request, Needs(s, request))
  {
  }

  function FootprintsOf(s: Stores, requests: map<Tid, Request>): map<Tid, Footprint> {
    map t | t in requests :: Needs(s, requests[t])
  }

  lemma NeedsAreSeparate(s: Stores, requests: map<Tid, Request>)
    requires s.repo.Inv() && s.clients.Inv()
    requires forall t :: t in requests ==> !requests[t].Expire?
    requires forall t, u :: t in requests && u in requests && t != u ==>
      Disjoint(Needs(s, requests[t]), Needs(s, requests[u]))
    ensures Separate(s, requests, FootprintsOf(s, requests))
  {
    hide Needs; hide Closed; hide RequestWithin; hide Disjoint;
    forall t | t in requests
      ensures Closed(s, Needs(s, requests[t])) && RequestWithin(requests[t], Needs(s, requests[t]))
    {
      NeedsAreClosed(s, requests[t]);
      NeedsSuffice(s, requests[t]);
    }
  }

  // If no two requests need the same thing, any complete interleaving of them is
  // the same as running them one after another.
  lemma DisjointNeedsAreAtomic(s: Stores, requests: map<Tid, Request>, schedule: seq<Tid>, order: seq<Tid>)
    requires s.repo.Inv() && s.clients.Inv() && Enumerates(order, requests.Keys)
    requires forall t :: t in requests ==> !requests[t].Expire?
    requires forall t, u :: t in requests && u in requests && t != u ==>
      Disjoint(Needs(s, requests[t]), Needs(s, requests[u]))
    requires Complete(After(Fresh(s, requests), schedule))
    ensures forall t :: t in order ==> t in requests
    ensures After(Fresh(s, requests), schedule) == OneByOne(s, requests, order)
  {
    hide Needs; hide Separate; hide Disjoint; hide After; hide Complete; hide OneByOne; hide Fresh;
    NeedsAreSeparate(s, requests);
    SeparateRequestsAreAtomic(s, requests, FootprintsOf(s, requests), schedule, order);
  }

  // ----- The two sides of membership -----

  // The request as one step of a run of whole requests.
  ghost function Whole(s: Stores, request: Request): Runs.Request {
    match request
    case Connect(name, newClient, now) => Runs.ConnectRequest(name, newClient, now)
    case Heartbeat(client, now) => Runs.HeartbeatRequest(client, now)
    case CreateChannel(client, name, newChannel) => Runs.CreateRequest(client, name, newChannel)
    case JoinChannel(client, channel, walk) => Runs.JoinRequest(client, channel, JoinOrder(s, client, channel, walk))
    case JoinChannelByName(client, name, walk) =>
      Runs.JoinByNameRequest(client, name, JoinByNameOrder(s, client, name, walk))
    case LeaveChannel(client, channel) => Runs.LeaveRequest(client, channel)
    case SendMessage(client, channel, content, newMessage, now) =>
      Runs.SendRequest(client, channel, content, newMessage, now,
                       AnyOrder(if channel in s.repo.byId then s.repo.byId[channel].members else {}))
    case Disconnect(client, walk) => Runs.DisconnectRequest(client, DisconnectOrder(s, client, walk))
    case Expire(deadline, order, walks) =>
      Runs.ExpireRequest(deadline, AllDoomed(CopiesOfExpired(s.clients, deadline, order), walks))
  }

  // The ids that the request brings with it are new.
  ghost predicate NewIds(s: Stores, request: Request) {
    && (request.Connect? ==> FreshClient(s.clients, request.newClient))
    && (request.CreateChannel? ==> request.newChannel !in s.repo.byId)
  }

  lemma WholeIsAtomic(s: Stores, request: Request)
    ensures Runs.Execute(s, Whole(s, request)).stores == Atomically(s, request).stores
  {
    hide UseCases.Join; hide UseCases.JoinByName; hide UseCases.Leave; hide UseCases.Disconnect; hide Sweep;
    hide UseCases.Connect; hide UseCases.Heartbeat; hide UseCases.CreateChannel;
    hide Text.CreateContent;
  }

  ghost function Quiet(s: Stores): Runs.World {
    Runs.Start(0, ChannelId("general")).(stores := s)
  }

  lemma AllAreCollected(s: Stores, deadline: int, order: seq<ClientId>, walks: Walks)
    requires s.clients.Inv()
    ensures Collected(s, deadline, AllDoomed(CopiesOfExpired(s.clients, deadline, order), walks))
  {
    var ids := InOrder(order, s.clients.Expired(deadline));
    var doomed := AllDoomed(CopiesOfExpired(s.clients, deadline, order), walks);
    forall i | 0 <= i < |ids| ensures ids[i] in s.clients.byId && doomed[i].session == s.clients.byId[ids[i]] {
      assert ids[i] in Elems(ids);
    }
    assert Ids(doomed) == ids;
  }

  lemma WholeIsAdmissible(s: Stores, request: Request)
    requires s.clients.Inv() && NewIds(s, request)
    ensures Runs.Admissible(Quiet(s), Whole(s, request))
  {
    if request.Expire? {
      AllAreCollected(s, request.deadline, request.order, request.walks);
    }
    hide Collected; hide Registry.Inv; hide Text.CreateChannelName; hide Text.Trim; hide Repo.FindByName;
  }

  lemma AtomicKeepsLinks(s: Stores, request: Request)
    requires Membership.Linked(s) && Membership.AtMostOneChannel(s) && NewIds(s, request)
    ensures Membership.Linked(Atomically(s, request).stores)
    ensures Membership.AtMostOneChannel(Atomically(s, request).stores)
  {
    hide Atomically; hide Whole; hide NewIds;
    WholeIsAtomic(s, request);
    WholeIsAdmissible(s, request);
    Runs.StoresKeepLinks(Quiet(s), Whole(s, request));
  }

  lemma StillNew(s: Stores, now: Stores, request: Request, f: Footprint)
    requires RequestWithin(request, f) && Agree(now, s, f) && NewIds(s, request)
    ensures NewIds(now, request)
  {
  }

  lemma {:induction false} OneByOneKeepsLinks(s: Stores, requests: map<Tid, Request>, fps: map<Tid, Footprint>,
                                              order: seq<Tid>)
    requires Separate(s, requests, fps) && NoDup(order) && forall t :: t in order ==> t in requests
    requires Membership.Linked(s) && Membership.AtMostOneChannel(s)
    requires forall t :: t in requests ==> NewIds(s, requests[t])
    ensures Membership.Linked(OneByOne(s, requests, order).stores)
    ensures Membership.AtMostOneChannel(OneByOne(s, requests, order).stores)
    decreases |order|
  {
    hide Start; hide Atomically; hide Closed; hide RequestWithin; hide TaskWithin; hide Disjoint; hide Agree;
    hide After;
    hide Membership.Linked; hide Membership.AtMostOneChannel; hide NewIds; hide Turns;
    if order != [] {
      var init, t := order[..|order| - 1], order[|order| - 1];
      assert t in order && t !in init && forall u :: u in init ==> u in order;
      OneByOneKeepsLinks(s, requests, fps, init);
      var before := SerialSchedule(s, requests, fps, init);
      SeparateIsIndependent(s, requests, fps);
      EachAsIfAlone(Fresh(s, requests), fps, before, t);
      var now := OneByOne(s, requests, init).stores;
      assert Agree(now, s, fps[t]);
      StillNew(s, now, requests[t], fps[t]);
      AtomicKeepsLinks(now, requests[t]);
    }
  }

  // And then the two sides of membership agree at the end, if they did at the start,
  // and nobody is in two channels, although the requests wrote back older copies.
  lemma DisjointNeedsKeepLinks(s: Stores, requests: map<Tid, Request>, schedule: seq<Tid>)
    requires Membership.Linked(s) && Membership.AtMostOneChannel(s)
    requires forall t :: t in requests ==> !requests[t].Expire? && NewIds(s, requests[t])
    requires forall t, u :: t in requests && u in requests && t != u ==>
      Disjoint(Needs(s, requests[t]), Needs(s, requests[u]))
    requires Complete(After(Fresh(s, requests), schedule))
    ensures Membership.Linked(After(Fresh(s, requests), schedule).stores)
    ensures Membership.AtMostOneChannel(After(Fresh(s, requests), schedule).stores)
  {
    hide Needs; hide Closed; hide RequestWithin; hide Disjoint; hide After; hide Complete; hide OneByOne; hide Fresh;
    hide Membership.AtMostOneChannel; hide NewIds;
    var order := AnyOrder(requests.Keys);
    assert forall t :: t in order <==> t in Elems(order);
    DisjointNeedsAreAtomic(s, requests, schedule, order);
    OneByOneKeepsLinks(s, requests, FootprintsOf(s, requests), order) by {
      NeedsAreSeparate(s, requests);
      hide Separate; hide Membership.Linked;
    }
  }
}

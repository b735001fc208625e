/**
 What clients are answered, and what they can build on an answer: which error a
 request is refused with, what an id that was handed out stands for, who is
 subscribed, and under which name and until when a client is known.
 */
module Answers {
  import opened Core
  import opened ChannelRepository
  import opened ClientRegistry
  import opened MessageRepository
  import opened UseCases
  import opened Membership
  import opened Expiry
  import opened Writers
  import opened Runs
  import opened Delivery
  import opened Announcements
  import Chat = ChatPublisher
  import Text

  // ----- Accepted or refused -----

  ghost predicate UsernameTaken(s: Stores, name: Username) {
    exists c :: c in s.clients.byId && s.clients.byId[c].username == name
  }

  ghost predicate ChannelNamed(s: Stores, name: ChannelName) {
    exists z :: z in s.repo.byId && s.repo.byId[z].name == name
  }

  ghost predicate IsLive(s: Stores, c: ClientId) {
    c in s.clients.byId
  }

  ghost predicate Exists(s: Stores, z: ChannelId) {
    z in s.repo.byId
  }

  // What each request is answered, by who is live, what exists and who is where.
  ghost function Answered(s: Stores, request: Request): Result<Unit> {
    match request
    case ConnectRequest(text, _, _) =>
      var name := Text.CreateUsername(Text.Trim(text));
      if name.None? then Err(InvalidUsername)
      else if UsernameTaken(s, name.value) then Err(ClientAlreadyExists) else Ok(Unit)
    case CreateRequest(c, text, _) =>
      var name := Text.CreateChannelName(Text.Trim(text));
      if !IsLive(s, c) then Err(ClientNotFound) else if name.None? then Err(InvalidChannelName)
      else if ChannelNamed(s, name.value) then Err(ChannelAlreadyExists) else Ok(Unit)
    case JoinRequest(c, z, _) =>
      if !IsLive(s, c) then Err(ClientNotFound) else if !Exists(s, z) then Err(ChannelNotFound) else Ok(Unit)
    case JoinByNameRequest(c, text, _) =>
      var name := Text.CreateChannelName(Text.Trim(text));
      if !IsLive(s, c) then Err(ClientNotFound) else if name.None? then Err(InvalidChannelName)
      else if !ChannelNamed(s, name.value) then Err(ChannelNotFound) else Ok(Unit)
    case LeaveRequest(c, z) =>
      if !IsLive(s, c) then Err(ClientNotFound) else if !Exists(s, z) then Err(ChannelNotFound)
      else if !IsMember(s, c, z) then Err(NotAMember) else Ok(Unit)
    case SendRequest(c, z, text, _, _, _) =>
      if !IsLive(s, c) then Err(ClientNotFound) else if !Exists(s, z) then Err(ChannelNotFound)
      else if !IsMember(s, c, z) then Err(NotAMember)
      else if Text.CreateContent(text).Err? then Err(Text.CreateContent(text).error) else Ok(Unit)
    case SubscribeRequest(c, z, _) =>
      if !Exists(s, z) then Err(ChannelNotFound) else if !IsMember(s, c, z) then Err(NotAMember) else Ok(Unit)
    case HeartbeatRequest(c, _) => if IsLive(s, c) then Ok(Unit) else Err(ClientNotFound)
    case DisconnectRequest(c, _) => if IsLive(s, c) then Ok(Unit) else Err(ClientNotFound)
    case WatchRequest(c, _, _) => if IsLive(s, c) then Ok(Unit) else Err(ClientNotFound)
    case _ => Ok(Unit)
  }

  lemma NamesAreIndexed(s: Stores)
    requires Linked(s)
    ensures forall name :: UsernameTaken(s, name) <==> name in s.clients.idOf
    ensures forall name :: ChannelNamed(s, name) <==> name in s.repo.idOf
  {
  }

  lemma MovesAnswered(w: World, request: Request)
    requires Inv(w) && Admissible(w, request) && Moves(request)
    ensures Execute(w.stores, request).result == Answered(w.stores, request)
  {
    var s := w.stores;
    NamesAreIndexed(s);
    hide UsernameTaken; hide ChannelNamed; hide Text.CreateChannelName; hide Sweep; hide Disconnect; hide Leave;
    hide Join; hide JoinByName; hide AtMostOneChannel; hide InOnly; hide Detached; hide Dropped; hide JoinCalls;
    hide LeaveCalls; hide LeaveAllCalls;
    match request {
      case JoinRequest(c, z, others) =>
        if c in s.clients.byId && z in s.repo.byId {
          JoinEffect(s, c, z, others);
        } else {
          JoinRefused(s, c, z, others);
        }
      case JoinByNameRequest(c, name, others) =>
        JoinByNameIsJoin(s, c, name, others);
        if c in s.clients.byId && NamedChannel(s, name).Ok? {
          JoinEffect(s, c, NamedChannel(s, name).value.id, others);
        } else {
          JoinByNameRefused(s, c, name, others);
        }
      case LeaveRequest(c, z) => LeaveEffect(s, c, z);
      case DisconnectRequest(c, channels) => DisconnectEffect(s, c, channels);
      case _ =>
    }
  }

  // Every request of a run is answered that way.
  lemma AnswerIs(w: World, request: Request)
    requires Inv(w) && Admissible(w, request)
    ensures Execute(w.stores, request).result == Answered(w.stores, request)
  {
    if Moves(request) {
      MovesAnswered(w, request);
      hide Execute; hide Answered; hide Admissible;
    } else {
      NamesAreIndexed(w.stores);
      hide UsernameTaken; hide ChannelNamed; hide Text.CreateContent; hide Text.CreateUsername; hide Linked;
      hide Text.CreateChannelName; hide PublishCalls; hide Buffers.Save;
    }
  }

  lemma JoinRefused(s: Stores, c: ClientId, z: ChannelId, others: seq<ChannelId>)
    requires !(c in s.clients.byId && z in s.repo.byId)
    ensures Join(s, c, z, others).result == Err(if c !in s.clients.byId then ClientNotFound else ChannelNotFound)
  {
  }

  lemma JoinByNameRefused(s: Stores, c: ClientId, name: string, others: seq<ChannelId>)
    requires !(c in s.clients.byId && NamedChannel(s, name).Ok?)
    ensures JoinByName(s, c, name, others).result
      == Err(if c !in s.clients.byId then ClientNotFound else NamedChannel(s, name).error)
  {
  }

  // ----- Ids that are handed out -----

  // The id that a connect answers with is that of a new live session under the name
  // asked for, and of nobody else's.
  lemma ConnectedUnder(s: Stores, text: string, newClient: ClientId, now: int)
    requires s.clients.Inv() && FreshClient(s.clients, newClient)
    requires Connect(s, text, newClient, now).result.Ok?
    ensures var s', id := Connect(s, text, newClient, now).stores, Connect(s, text, newClient, now).result.value;
      && Text.CreateUsername(Text.Trim(text)).Some?
      && s.clients.Find(id).Err?
      && s'.clients.FindByUsername(Text.CreateUsername(Text.Trim(text)).value) == s'.clients.Find(id)
      && s'.clients.Find(id) == Ok(SessionRecord(id, Text.CreateUsername(Text.Trim(text)).value, {}, now))
      && forall c :: c != id ==> s'.clients.Find(c) == s.clients.Find(c)
  {
    hide Text.CreateUsername;
  }

  // The id that a creation answers with is that of a new channel of that name, without
  // members.
  lemma CreatedUnder(s: Stores, client: ClientId, text: string, newChannel: ChannelId)
    requires s.repo.Inv() && newChannel !in s.repo.byId
    requires CreateChannel(s, client, text, newChannel).result.Ok?
    ensures var out := CreateChannel(s, client, text, newChannel);
      var s', id := out.stores, out.result.value;
      && Text.CreateChannelName(Text.Trim(text)).Some?
      && s.repo.Find(id).Err?
      && s'.repo.FindByName(Text.CreateChannelName(Text.Trim(text)).value) == s'.repo.Find(id)
      && s'.repo.Find(id) == Ok(ChannelRecord(id, Text.CreateChannelName(Text.Trim(text)).value, {}))
      && forall z :: z != id ==> s'.repo.Find(z) == s.repo.Find(z)
  {
    hide Text.CreateChannelName;
  }

  // The id that a send answers with is that of the newest message of the channel, which
  // has the sender, the accepted content and the time of sending.
  lemma SentIsNewest(s: Stores, sender: ClientId, channel: ChannelId, text: string, newMessage: MessageId, now: int,
                     order: seq<ClientId>)
    requires s.messages.cap >= 1
    requires Send(s, sender, channel, text, newMessage, now, order).result.Ok?
    ensures var out := Send(s, sender, channel, text, newMessage, now, order);
      && Text.CreateContent(text).Ok?
      && out.stores.messages.Recent(channel, 1)
         == [Message(out.result.value, sender, channel, Text.CreateContent(text).value, now)]
      && forall z :: z != channel ==> out.stores.messages.Of(z) == s.messages.Of(z)
  {
    hide Text.CreateContent;
  }

  // ----- Subscriptions -----

  // A subscription is for members: it is then the client's only writer and starts empty;
  // anyone else is refused and is left without any.
  lemma SubscribedIffMember(w: World, client: ClientId, channel: ChannelId, writer: WriterId)
    requires Inv(w) && writer !in w.chat.written
    ensures var request := SubscribeRequest(client, channel, writer);
      var result, chat := Execute(w.stores, request).result, Next(w, request).chat;
      && (result.Ok? <==> IsMember(w.stores, client, channel))
      && (result.Err? ==> result.error == if channel in w.stores.repo.byId then NotAMember else ChannelNotFound)
      && (client in chat.writers <==> IsMember(w.stores, client, channel))
      && (client in chat.writers ==>
            chat.writers[client] == writer && writer in chat.written && chat.written[writer] == [])
      && (forall c :: c != client ==> (c in chat.writers <==> c in w.chat.writers))
      && (forall c :: c != client && c in chat.writers ==> chat.writers[c] == w.chat.writers[c])
  {
    hide ListAfter; hide StalesAfter; hide SavedBy; hide Inv;
  }

  // In every state of every run, whoever is subscribed to channel events is live.
  lemma {:induction false} SubscribersAreLive(cap: nat, worlds: seq<World>, requests: seq<Request>, n: nat, c: ClientId)
    requires Run(cap, worlds, requests) && n < |worlds| && c in worlds[n].chat.writers
    ensures c in worlds[n].stores.clients.byId
    decreases n
  {
    if n > 0 {
      var w, request := worlds[n - 1], requests[n - 1];
      hide Next; hide Admissible; hide Inv; hide Runs.Start;
      RunKeepsInv(cap, worlds, requests, n - 1);
      assert worlds[n - 1 + 1] == Next(w, request);
      WritersAfter(w, request);
      LiveAfter(w, request);
      if request.SubscribeRequest? && c == request.client {
        MembersAreLive(w, c, request.channel);
      } else {
        SubscribersAreLive(cap, worlds, requests, n - 1, c);
      }
    }
  }

  lemma MembersAreLive(w: World, c: ClientId, z: ChannelId)
    requires Inv(w) && IsMember(w.stores, c, z)
    ensures c in w.stores.clients.byId
  {
    assert HasJoined(w.stores, c, z);
  }

  lemma MovesKeepLive(w: World, request: Request)
    requires Inv(w) && Admissible(w, request) && Moves(request)
    ensures forall c :: c in w.stores.clients.byId ==>
      (c in Next(w, request).stores.clients.byId <==> c !in SentAway(w.stores, request))
  {
    StoresAfter(w, request);
    hide ChatAfter; hide ListAfter; hide StalesAfter; hide SavedBy; hide Execute; hide Linked; hide Without; hide Inv;
    hide Admissible; hide IsMember; hide NamedChannel;
  }

  lemma OthersKeepLive(w: World, request: Request)
    requires Inv(w) && Admissible(w, request) && !Moves(request)
    ensures forall c :: c in w.stores.clients.byId ==> c in Next(w, request).stores.clients.byId
  {
    hide ChatAfter; hide ListAfter; hide StalesAfter; hide SavedBy; hide Text.CreateContent; hide Linked;
    hide Text.CreateChannelName; hide Text.CreateUsername; hide Buffers.Save; hide PublishCalls;
  }

  // A session ends by its disconnect or by a sweep and in no other way.
  lemma LiveAfter(w: World, request: Request)
    requires Inv(w) && Admissible(w, request)
    ensures forall c :: c in w.stores.clients.byId ==>
      (c in Next(w, request).stores.clients.byId <==> c !in SentAway(w.stores, request))
  {
    if Moves(request) {
      MovesKeepLive(w, request);
    } else {
      OthersKeepLive(w, request);
    }
    hide Next; hide Inv; hide Admissible;
  }

  // ----- Names on messages -----

  // A message in a stream has been saved, and goes under the name on record.
  ghost predicate IsNamed(event: Chat.ChatEvent, saves: seq<Message>, names: Chat.Names) {
    event.MessageEvent? ==>
      && event.message in saves && event.message.sender in names
      && event.senderName == Some(names[event.message.sender])
  }

  ghost predicate AllNamed(s: Chat.ChatStreams, saves: seq<Message>, names: Chat.Names) {
    forall v, i :: v in s.written && 0 <= i < |s.written[v]| ==> IsNamed(s.written[v][i], saves, names)
  }

  ghost predicate Nameable(call: Call, saves: seq<Message>, names: Chat.Names) {
    call.Published? ==> call.message in saves && call.message.sender in names
  }

  lemma {:induction false} CallsKeepNamed(s: Chat.ChatStreams, calls: seq<Call>, saves: seq<Message>, names: Chat.Names)
    requires AllNamed(s, saves, names) && forall i :: 0 <= i < |calls| ==> Nameable(calls[i], saves, names)
    ensures AllNamed(Chat.ApplyAll(s, calls, names), saves, names)
  {
    if calls != [] {
      CallsKeepNamed(s, calls[..|calls| - 1], saves, names);
      assert Nameable(calls[|calls| - 1], saves, names);
    }
  }

  lemma NamedStays(s: Chat.ChatStreams, saves: seq<Message>, names: Chat.Names, more: seq<Message>, later: Chat.Names)
    requires AllNamed(s, saves, names)
    requires forall c :: c in names ==> c in later && later[c] == names[c]
    ensures AllNamed(s, saves + more, later)
  {
    assert forall m :: m in saves ==> m in saves + more;
  }

  // What a request publishes is what it saves, sent by somebody on record.
  lemma PublishedIsSaved(w: World, request: Request)
    requires Inv(w) && Admissible(w, request)
    ensures forall i :: 0 <= i < |Execute(w.stores, request).calls| ==>
      Nameable(Execute(w.stores, request).calls[i], w.saves + SavedBy(w.stores, request), w.stores.clients.historical)
  {
    MessagesAfter(w, request);
    LiveIsOnRecord(w);
    if request.SendRequest? {
      SendParts(w, request);
    } else {
      OnlySendPublishes(w, request);
    }
    hide Execute; hide SavedBy; hide Inv; hide Admissible; hide Next;
  }

  lemma StepKeepsNamed(w: World, request: Request)
    requires Inv(w) && Admissible(w, request) && AllNamed(w.chat, w.saves, w.stores.clients.historical)
    ensures AllNamed(Next(w, request).chat, Next(w, request).saves, Next(w, request).stores.clients.historical)
  {
    var saves, names := w.saves + SavedBy(w.stores, request), w.stores.clients.historical;
    StepKeepsNames(w, request);
    PublishedIsSaved(w, request);
    NamedStays(w.chat, w.saves, names, SavedBy(w.stores, request), names);
    hide Execute; hide SavedBy; hide Inv; hide Admissible; hide ListAfter; hide StalesAfter; hide Nameable;
    hide IsNamed;
    if !request.SubscribeRequest? && !request.CancelRequest? {
      CallsKeepNamed(w.chat, Execute(w.stores, request).calls, saves, names);
    }
    assert AllNamed(Next(w, request).chat, saves, names);
    NamedStays(Next(w, request).chat, saves, names, [], Next(w, request).stores.clients.historical);
    assert saves + [] == saves;
  }

  lemma {:induction false} RunKeepsNamed(cap: nat, worlds: seq<World>, requests: seq<Request>, n: nat)
    requires Run(cap, worlds, requests) && n < |worlds|
    ensures AllNamed(worlds[n].chat, worlds[n].saves, worlds[n].stores.clients.historical)
    decreases n
  {
    if n > 0 {
      hide Next; hide Admissible; hide Inv; hide AllNamed;
      RunKeepsNamed(cap, worlds, requests, n - 1);
      RunKeepsInv(cap, worlds, requests, n - 1);
      assert worlds[n - 1 + 1] == Next(worlds[n - 1], requests[n - 1]);
      StepKeepsNamed(worlds[n - 1], requests[n - 1]);
    }
  }

  // Every message that a subscriber ever reads goes under the name with which its sender
  // was registered when it was live, even if by then the sender is gone.
  lemma MessagesAreNamed(cap: nat, worlds: seq<World>, requests: seq<Request>, n: nat, writer: WriterId, k: nat)
    returns (i: nat)
    requires Run(cap, worlds, requests) && n < |worlds| && writer in worlds[n].chat.written
    requires k < |worlds[n].chat.written[writer]| && worlds[n].chat.written[writer][k].MessageEvent?
    ensures var event := worlds[n].chat.written[writer][k];
      && i <= n && event.message in worlds[n].saves && event.message.sender in worlds[i].stores.clients.byId
      && event.senderName == Some(worlds[i].stores.clients.byId[event.message.sender].username)
  {
    RunKeepsNamed(cap, worlds, requests, n);
    var event := worlds[n].chat.written[writer][k];
    assert IsNamed(event, worlds[n].saves, worlds[n].stores.clients.historical);
    hide Run; hide AllNamed;
    i := SenderWasLive(cap, worlds, requests, n, event.message);
    NamesStay(cap, worlds, requests, i, n, event.message.sender);
  }

  // ----- Signs of life -----

  // When the client last gave a sign of life that was accepted: the time of its connect
  // or of its latest heartbeat.
  ghost function LastSign(worlds: seq<World>, requests: seq<Request>, n: nat, c: ClientId): Option<int>
    requires n <= |requests| < |worlds|
  {
    if n == 0 then None
    else
      match requests[n - 1]
      case ConnectRequest(_, newClient, now) =>
        if newClient == c && c in worlds[n].stores.clients.byId then Some(now)
        else LastSign(worlds, requests, n - 1, c)
      case HeartbeatRequest(client, now) =>
        if client == c && c in worlds[n].stores.clients.byId then Some(now) else LastSign(worlds, requests, n - 1, c)
      case _ => LastSign(worlds, requests, n - 1, c)
  }

  // How a step moves the last heartbeat of a client that is live after it.
  ghost predicate SignMoves(w: World, request: Request, c: ClientId)
    requires c in Next(w, request).stores.clients.byId
  {
    var now := Next(w, request).stores.clients.byId[c].lastHeartbeat;
    if request.ConnectRequest? && request.newClient == c then now == request.now
    else c in w.stores.clients.byId
         && now == if request.HeartbeatRequest? && request.client == c then request.now
                   else w.stores.clients.byId[c].lastHeartbeat
  }

  lemma SignOfMoves(w: World, request: Request, c: ClientId)
    requires Inv(w) && Admissible(w, request) && Moves(request) && c in Next(w, request).stores.clients.byId
    ensures SignMoves(w, request, c)
  {
    StoresAfter(w, request);
    hide ChatAfter; hide ListAfter; hide StalesAfter; hide SavedBy; hide Execute; hide Linked; hide Without; hide Inv;
    hide Admissible; hide IsMember; hide NamedChannel;
  }

  lemma QuietKeepsClients(s: Stores, request: Request)
    requires !Moves(request) && !request.ConnectRequest? && !request.HeartbeatRequest?
    ensures Execute(s, request).stores.clients == s.clients
  {
    hide Text.CreateContent; hide Text.CreateChannelName; hide Buffers.Save; hide PublishCalls; hide Repo.Create;
  }

  lemma SignOfStep(w: World, request: Request, c: ClientId)
    requires Inv(w) && Admissible(w, request) && c in Next(w, request).stores.clients.byId
    ensures SignMoves(w, request, c)
  {
    hide ChatAfter; hide ListAfter; hide StalesAfter; hide SavedBy;
    if Moves(request) {
      hide Execute;
      SignOfMoves(w, request, c);
    } else if request.ConnectRequest? || request.HeartbeatRequest? {
      hide Text.CreateUsername; hide Linked; hide AtMostOneChannel;
    } else {
      QuietKeepsClients(w.stores, request);
      hide Execute; hide Inv; hide Admissible;
    }
  }

  lemma SignIsKept(worlds: seq<World>, requests: seq<Request>, n: nat, c: ClientId)
    requires 0 < n <= |requests| < |worlds| && Inv(worlds[n - 1]) && Admissible(worlds[n - 1], requests[n - 1])
    requires worlds[n] == Next(worlds[n - 1], requests[n - 1]) && c in worlds[n].stores.clients.byId
    requires c in worlds[n - 1].stores.clients.byId ==>
      LastSign(worlds, requests, n - 1, c) == Some(worlds[n - 1].stores.clients.byId[c].lastHeartbeat)
    ensures LastSign(worlds, requests, n, c) == Some(worlds[n].stores.clients.byId[c].lastHeartbeat)
  {
    SignOfStep(worlds[n - 1], requests[n - 1], c);
    hide Next; hide Admissible; hide Inv;
  }

  lemma RunGoesOn(cap: nat, worlds: seq<World>, requests: seq<Request>, k: nat)
    requires Run(cap, worlds, requests) && k < |requests|
    ensures |requests| < |worlds| && Inv(worlds[k]) && Admissible(worlds[k], requests[k])
    ensures worlds[k + 1] == Next(worlds[k], requests[k])
  {
    hide Next; hide Admissible; hide Inv; hide Runs.Start;
    RunKeepsInv(cap, worlds, requests, k);
  }

  lemma NobodyAtFirst(cap: nat, worlds: seq<World>, requests: seq<Request>)
    requires Run(cap, worlds, requests)
    ensures |worlds| == |requests| + 1 && worlds[0].stores.clients.byId == map[]
  {
    hide Next; hide Admissible;
  }

  // In every state of every run the heartbeat on record of a live client is that.
  lemma {:induction false} HeartbeatIsLastSign(cap: nat, worlds: seq<World>, requests: seq<Request>, n: nat,
                                               c: ClientId)
    requires Run(cap, worlds, requests) && n < |worlds| && c in worlds[n].stores.clients.byId
    ensures LastSign(worlds, requests, n, c) == Some(worlds[n].stores.clients.byId[c].lastHeartbeat)
    decreases n
  {
    hide *;
    NobodyAtFirst(cap, worlds, requests);
    if n > 0 {
      RunGoesOn(cap, worlds, requests, n - 1);
      if c in worlds[n - 1].stores.clients.byId {
        HeartbeatIsLastSign(cap, worlds, requests, n - 1, c);
      }
      SignIsKept(worlds, requests, n, c);
    }
  }

  // So a sweep ends the session of a live client exactly if it has not given a sign of
  // life since the deadline.
  lemma SweptIffSilent(cap: nat, worlds: seq<World>, requests: seq<Request>, n: nat, c: ClientId)
    requires Run(cap, worlds, requests) && n < |requests| && requests[n].ExpireRequest?
    requires c in worlds[n].stores.clients.byId
    ensures LastSign(worlds, requests, n, c).Some?
    ensures c !in worlds[n + 1].stores.clients.byId
      <==> LastSign(worlds, requests, n, c).value < requests[n].deadline
  {
    HeartbeatIsLastSign(cap, worlds, requests, n, c);
    RunKeepsInv(cap, worlds, requests, n);
    assert worlds[n + 1] == Next(worlds[n], requests[n]);
    hide Next; hide Runs.Start; hide LastSign; hide Inv;
    LiveAfter(worlds[n], requests[n]);
  }
}

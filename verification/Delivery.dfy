/**
 What a subscriber receives. Over any stretch of a run during which a client
 keeps its writer, the messages added to its stream are exactly those sent to
 the channel it is in, each once and in the order of the channel's log; nothing
 of any other channel reaches it.
 */
module Delivery {
  import opened Core
  import opened ClientRegistry
  import opened MessageRepository
  import opened UseCases
  import opened Membership
  import opened Expiry
  import opened Writers
  import opened Runs
  import Chat = ChatPublisher
  import Text

  // The messages of a stream, in order; announcements left out.
  function Messages(events: seq<Chat.ChatEvent>): seq<Message> {
    if events == [] then []
    else
      var last := events[|events| - 1];
      Messages(events[..|events| - 1]) + if last.MessageEvent? then [last.message] else []
  }

  lemma MessagesSnoc(events: seq<Chat.ChatEvent>, event: Chat.ChatEvent)
    ensures Messages(events + [event]) == Messages(events) + if event.MessageEvent? then [event.message] else []
  {
    assert (events + [event])[..|events|] == events;
  }

  lemma {:induction false} SentToAppended(a: seq<Message>, b: seq<Message>, channel: ChannelId)
    ensures SentTo(a + b, channel) == SentTo(a, channel) + SentTo(b, channel)
    decreases |b|
  {
    if b == [] {
      assert a + b == a;
    } else {
      assert (a + b)[..|a + b| - 1] == a + b[..|b| - 1];
      SentToAppended(a, b[..|b| - 1], channel);
    }
  }

  // ----- One step -----

  predicate Publishes(calls: seq<Call>) {
    exists i :: 0 <= i < |calls| && calls[i].Published?
  }

  lemma AnnouncementCarriesNoMessage(s: Chat.ChatStreams, call: Call, names: Chat.Names, writer: WriterId)
    requires writer in s.written && !call.Published?
    ensures var s' := Chat.Apply(s, call, names);
      writer in s'.written && Messages(s'.written[writer]) == Messages(s.written[writer])
  {
    match call {
      case MemberJoined(channel, recipients, client, username) =>
        MessagesSnoc(s.written[writer], Chat.JoinedEvent(channel, client, username));
      case MemberLeft(channel, recipients, client, username) =>
        MessagesSnoc(s.written[writer], Chat.LeftEvent(channel, client, username));
      case _ =>
    }
  }

  // Announcements add no message to any stream, and closing one leaves its contents.
  lemma {:induction false} AnnouncementsCarryNoMessage(s: Chat.ChatStreams, calls: seq<Call>, names: Chat.Names,
                                                       writer: WriterId)
    requires writer in s.written && !Publishes(calls)
    ensures var s' := Chat.ApplyAll(s, calls, names);
      writer in s'.written && Messages(s'.written[writer]) == Messages(s.written[writer])
  {
    if calls != [] {
      var front, last := calls[..|calls| - 1], calls[|calls| - 1];
      assert !last.Published?;
      assert forall i :: 0 <= i < |front| ==> front[i] == calls[i];
      hide Chat.Apply; hide Messages;
      AnnouncementsCarryNoMessage(s, front, names, writer);
      AnnouncementCarriesNoMessage(Chat.ApplyAll(s, front, names), last, names, writer);
    }
  }

  // Publishing one message to a list of different clients reaches each
  // subscribed one exactly once, and nobody else.
  lemma {:induction false} PublishReachesRecipients(s: Chat.ChatStreams, order: seq<ClientId>, message: Message,
                                                    names: Chat.Names, client: ClientId)
    requires s.Inv() && client in s.writers && NoDup(order)
    ensures var s' := Chat.ApplyAll(s, PublishCalls(order, message), names);
      && s'.writers == s.writers && s'.Inv()
      && s'.written[s.writers[client]]
         == s.written[s.writers[client]]
            + if client in order then [Chat.MessageToEvent(message, names)] else []
    decreases |order|
  {
    var calls := PublishCalls(order, message);
    if order != [] {
      var front, last := order[..|order| - 1], order[|order| - 1];
      assert calls[..|calls| - 1] == PublishCalls(front, message);
      PublishReachesRecipients(s, front, message, names, client);
      var before := Chat.ApplyAll(s, PublishCalls(front, message), names);
      DeliverToOne(before, {last}, Chat.MessageToEvent(message, names), client);
      assert client in order <==> client in front || client == last;
    }
  }

  lemma {:induction false} LeaveAllPublishesNothing(s: Stores, session: SessionRecord, channels: seq<ChannelId>)
    requires forall channel :: channel in channels ==> channel in s.repo.byId
    ensures !Publishes(LeaveAllCalls(s, session, channels))
  {
    if channels != [] {
      var front := channels[..|channels| - 1];
      LeaveAllPublishesNothing(s, session, front);
      NeitherPublishes(LeaveAllCalls(s, session, front), LeaveCalls(s, session, channels[|channels| - 1]));
    }
  }

  lemma NeitherPublishes(a: seq<Call>, b: seq<Call>)
    requires !Publishes(a) && !Publishes(b)
    ensures !Publishes(a + b)
  {
  }

  lemma {:induction false} LeftCallsPublishNothing(s: Stores, session: SessionRecord, channels: seq<ChannelId>,
                                                   gone: set<ClientId>)
    requires forall channel :: channel in channels ==> channel in s.repo.byId
    ensures !Publishes(LeftCalls(s, session, channels, gone))
  {
    if channels != [] {
      LeftCallsPublishNothing(s, session, channels[..|channels| - 1], gone);
    }
  }

  lemma {:induction false} SweepPublishesNothing(s: Stores, doomed: seq<Doomed>)
    requires ChannelsExist(s, doomed)
    ensures !Publishes(SweepCalls(s, doomed))
  {
    if doomed != [] {
      var front, last := doomed[..|doomed| - 1], doomed[|doomed| - 1];
      assert ChannelsExist(s, front);
      SweepPublishesNothing(s, front);
      LeftCallsPublishNothing(s, last.session, last.channels, Elems(Ids(doomed)));
      NeitherPublishes(SweepCalls(s, front), LeftCalls(s, last.session, last.channels, Elems(Ids(doomed))));
    }
  }

  lemma OnlySendPublishes(w: World, request: Request)
    requires Inv(w) && Admissible(w, request) && !request.SendRequest?
    ensures !Publishes(Execute(w.stores, request).calls)
  {
    hide Execute;
    hide Linked;
    hide LeaveAllCalls;
    hide SweepCalls;
    CallsAfter(w, request);
    var s := w.stores;
    match request {
      case JoinRequest(client, channel, others) =>
        if client in s.clients.byId && channel in s.repo.byId {
          JoinPublishesNothing(s, s.clients.byId[client], channel, others);
        }
      case JoinByNameRequest(client, name, others) =>
        if client in s.clients.byId && NamedChannel(s, name).Ok? {
          JoinPublishesNothing(s, s.clients.byId[client], NamedChannel(s, name).value.id, others);
        }
      case DisconnectRequest(client, channels) =>
        if client in s.clients.byId {
          LeaveAllPublishesNothing(s, s.clients.byId[client], channels);
        }
      case ExpireRequest(deadline, doomed) => SweepPublishesNothing(s, doomed);
      case CreateRequest(_, _, _) => CreatePublishesNothing(s, request);
      case _ =>
    }
  }

  lemma CreatePublishesNothing(s: Stores, request: Request)
    requires request.CreateRequest?
    ensures !Publishes(Execute(s, request).calls)
  {
  }

  lemma JoinPublishesNothing(s: Stores, session: SessionRecord, target: ChannelId, others: seq<ChannelId>)
    requires target in s.repo.byId && forall channel :: channel in others ==> channel in s.repo.byId
    ensures !Publishes(JoinCalls(s, session, target, others))
  {
    LeaveAllPublishesNothing(s, session, others);
  }

  // The client is subscribed through this writer before and after the step.
  ghost predicate KeepsWriter(w: World, w': World, client: ClientId, writer: WriterId) {
    && client in w.chat.writers && w.chat.writers[client] == writer
    && client in w'.chat.writers && w'.chat.writers[client] == writer
  }

  // What a step delivers to a client: the message it saves, if the client is a
  // member of that message's channel.
  ghost function DeliveredBy(w: World, request: Request, client: ClientId): seq<Message> {
    var saved := SavedBy(w.stores, request);
    if saved != [] && IsMember(w.stores, client, saved[0].channel) then saved else []
  }

  lemma StepDelivers(w: World, request: Request, client: ClientId, writer: WriterId)
    requires Inv(w) && Admissible(w, request) && KeepsWriter(w, Next(w, request), client, writer)
    ensures writer in w.chat.written && writer in Next(w, request).chat.written
    ensures Messages(Next(w, request).chat.written[writer])
      == Messages(w.chat.written[writer]) + DeliveredBy(w, request, client)
  {
    var before := Messages(w.chat.written[writer]);
    MessagesAfter(w, request);
    assert before + [] == before;
    if request.SendRequest? {
      SendDelivers(w, request, client);
    } else {
      OnlySendPublishes(w, request);
      AnnouncementsCarryNoMessage(w.chat, Execute(w.stores, request).calls, w.stores.clients.historical, writer);
    }
  }

  // A send that saves something saves one message and publishes it to the members.
  lemma SendParts(w: World, request: Request)
    requires Inv(w) && Admissible(w, request) && request.SendRequest?
    ensures var saved := SavedBy(w.stores, request);
      if saved == [] then Execute(w.stores, request).calls == []
      else
        && saved == [saved[0]] && saved[0].channel == request.channel && request.channel in w.stores.repo.byId
        && Execute(w.stores, request).calls == PublishCalls(request.order, saved[0])
        && Enumerates(request.order, w.stores.repo.byId[request.channel].members)
  {
    hide PublishCalls; hide Text.CreateContent; hide Inv; hide Enumerates; hide Buffers.Save;
  }

  lemma PublishDelivers(s: Chat.ChatStreams, order: seq<ClientId>, members: set<ClientId>, message: Message,
                        names: Chat.Names, client: ClientId)
    requires s.Inv() && client in s.writers && Enumerates(order, members)
    ensures var s', writer := Chat.ApplyAll(s, PublishCalls(order, message), names), s.writers[client];
      && writer in s'.written
      && Messages(s'.written[writer]) == Messages(s.written[writer]) + if client in members then [message] else []
  {
    var written := s.written[s.writers[client]];
    PublishReachesRecipients(s, order, message, names, client);
    hide PublishCalls; hide Chat.ApplyAll;
    assert client in order <==> client in Elems(order);
    MessagesSnoc(written, Chat.MessageToEvent(message, names));
    assert written + [] == written && Messages(written) + [] == Messages(written);
  }

  lemma SendDelivers(w: World, request: Request, client: ClientId)
    requires Inv(w) && Admissible(w, request) && request.SendRequest?
    requires client in w.chat.writers
    ensures var writer := w.chat.writers[client];
      && writer in Next(w, request).chat.written
      && Messages(Next(w, request).chat.written[writer])
         == Messages(w.chat.written[writer]) + DeliveredBy(w, request, client)
  {
    hide ListAfter; hide StalesAfter; hide Execute; hide SavedBy; hide Linked; hide PublishCalls; hide AtMostOneChannel;
    hide Messages;
    SendParts(w, request);
    hide Admissible;
    var writer, saved := w.chat.writers[client], SavedBy(w.stores, request);
    if saved == [] {
      assert Messages(w.chat.written[writer]) + [] == Messages(w.chat.written[writer]);
    } else {
      PublishDelivers(w.chat, request.order, w.stores.repo.byId[request.channel].members, saved[0],
                      w.stores.clients.historical, client);
    }
  }

  // ----- Stretches of a run -----

  ghost predicate Subscribed(worlds: seq<World>, i: nat, j: nat, client: ClientId, writer: WriterId)
    requires i <= j < |worlds|
  {
    forall k :: i <= k <= j ==> client in worlds[k].chat.writers && worlds[k].chat.writers[client] == writer
  }

  ghost predicate MemberThroughout(worlds: seq<World>, i: nat, j: nat, client: ClientId, channel: ChannelId)
    requires i <= j < |worlds|
  {
    forall k :: i <= k < j ==> IsMember(worlds[k].stores, client, channel)
  }

  ghost predicate NeverMember(worlds: seq<World>, i: nat, j: nat, client: ClientId, channel: ChannelId)
    requires i <= j < |worlds|
  {
    forall k :: i <= k < j ==> !IsMember(worlds[k].stores, client, channel)
  }

  lemma WriterHasStream(w: World, client: ClientId)
    requires Inv(w) && client in w.chat.writers
    ensures w.chat.writers[client] in w.chat.written
  {
  }

  lemma MoreOfTheLog(first: seq<Message>, from: seq<Message>, to: seq<Message>, sent: seq<Message>)
    requires from <= to
    ensures from <= to + sent && first + to[|from|..] + sent == first + (to + sent)[|from|..]
  {
  }

  // From log position i to j: the stream grows by exactly that part of the log.
  lemma {:induction false} MemberReceivesLogSegment(cap: nat, worlds: seq<World>, requests: seq<Request>,
                                                    i: nat, j: nat, client: ClientId, writer: WriterId,
                                                    channel: ChannelId)
    requires Run(cap, worlds, requests) && i <= j < |worlds|
    requires Subscribed(worlds, i, j, client, writer) && MemberThroughout(worlds, i, j, client, channel)
    ensures writer in worlds[i].chat.written && writer in worlds[j].chat.written
    ensures var from, to := SentTo(worlds[i].saves, channel), SentTo(worlds[j].saves, channel);
      && from <= to
      && Messages(worlds[j].chat.written[writer]) == Messages(worlds[i].chat.written[writer]) + to[|from|..]
    decreases j
  {
    hide Next; hide Start; hide Admissible; hide SentTo; hide Messages; hide Inv; hide SavedBy;
    RunKeepsInv(cap, worlds, requests, i);
    WriterHasStream(worlds[i], client);
    if i < j {
      var w, request := worlds[j - 1], requests[j - 1];
      MemberReceivesLogSegment(cap, worlds, requests, i, j - 1, client, writer, channel);
      RunKeepsInv(cap, worlds, requests, j - 1);
      assert worlds[j - 1 + 1] == Next(w, request);
      MemberStep(w, request, client, writer, channel);
      MoreOfTheLog(Messages(worlds[i].chat.written[writer]), SentTo(worlds[i].saves, channel),
                   SentTo(w.saves, channel), SentTo(SavedBy(w.stores, request), channel));
    } else {
      var log := SentTo(worlds[i].saves, channel);
      assert log[|log|..] == [];
    }
  }

  lemma MemberStep(w: World, request: Request, client: ClientId, writer: WriterId, channel: ChannelId)
    requires Inv(w) && Admissible(w, request) && KeepsWriter(w, Next(w, request), client, writer)
    requires IsMember(w.stores, client, channel)
    ensures writer in w.chat.written && writer in Next(w, request).chat.written
    ensures var sent := SentTo(SavedBy(w.stores, request), channel);
      && SentTo(Next(w, request).saves, channel) == SentTo(w.saves, channel) + sent
      && Messages(Next(w, request).chat.written[writer]) == Messages(w.chat.written[writer]) + sent
  {
    hide ListAfter;
    hide Execute;
    hide SavedBy;
    StepDelivers(w, request, client, writer);
    SentToAppended(w.saves, SavedBy(w.stores, request), channel);
    OneChannelDelivered(w, request, client, channel);
  }

  // A member of a channel is in no other, so what it receives is that channel's.
  lemma OneChannelDelivered(w: World, request: Request, client: ClientId, channel: ChannelId)
    requires Inv(w) && Admissible(w, request) && IsMember(w.stores, client, channel)
    ensures DeliveredBy(w, request, client) == SentTo(SavedBy(w.stores, request), channel)
  {
    hide ChatAfter;
    hide ListAfter;
    hide Execute;
    hide SavedBy;
    MessagesAfter(w, request);
    var saved := SavedBy(w.stores, request);
    assert HasJoined(w.stores, client, channel);
    if saved != [] {
      assert saved[..0] == [] && saved == [saved[0]];
      assert IsMember(w.stores, client, saved[0].channel) ==> HasJoined(w.stores, client, saved[0].channel);
    }
  }

  // Whoever is not in a channel receives none of its messages.
  lemma {:induction false} NonMemberReceivesNothing(cap: nat, worlds: seq<World>, requests: seq<Request>,
                                                    i: nat, j: nat, client: ClientId, writer: WriterId,
                                                    channel: ChannelId)
    requires Run(cap, worlds, requests) && i <= j < |worlds|
    requires Subscribed(worlds, i, j, client, writer) && NeverMember(worlds, i, j, client, channel)
    ensures writer in worlds[i].chat.written && writer in worlds[j].chat.written
    ensures SentTo(Messages(worlds[j].chat.written[writer]), channel)
      == SentTo(Messages(worlds[i].chat.written[writer]), channel)
    decreases j
  {
    hide Next;
    hide Start;
    hide Admissible;
    hide SentTo;
    hide Messages;
    RunKeepsInv(cap, worlds, requests, i);
    if i < j {
      var w, request := worlds[j - 1], requests[j - 1];
      NonMemberReceivesNothing(cap, worlds, requests, i, j - 1, client, writer, channel);
      RunKeepsInv(cap, worlds, requests, j - 1);
      assert worlds[j - 1 + 1] == Next(w, request);
      NonMemberStep(w, request, client, writer, channel);
    }
  }

  lemma NonMemberStep(w: World, request: Request, client: ClientId, writer: WriterId, channel: ChannelId)
    requires Inv(w) && Admissible(w, request) && KeepsWriter(w, Next(w, request), client, writer)
    requires !IsMember(w.stores, client, channel)
    ensures writer in w.chat.written && writer in Next(w, request).chat.written
    ensures SentTo(Messages(Next(w, request).chat.written[writer]), channel)
      == SentTo(Messages(w.chat.written[writer]), channel)
  {
    hide ListAfter;
    hide Execute;
    hide SavedBy;
    StepDelivers(w, request, client, writer);
    MessagesAfter(w, request);
    var delivered := DeliveredBy(w, request, client);
    if delivered != [] {
      assert SentTo(delivered[..0], channel) == [];
    }
    SentToAppended(Messages(w.chat.written[writer]), delivered, channel);
  }
}

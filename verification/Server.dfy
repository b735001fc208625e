/**
 The use cases in their imperative form, over the adapters that the server
 wires together. Every method is proved against the function of the module
 UseCases that bears its name: the stores, both publishers and the answer are
 those of the function. Where a loop walks an unordered container, the order it
 took is returned as a ghost result.
 */
module Server {
  import opened Core
  import opened ChannelRepository
  import opened ClientRegistry
  import opened MessageRepository
  import opened DomainModel
  import opened UseCases
  import Chat = ChatPublisher
  import List = ListPublisher
  import Membership
  import Runs
  import Text
  import Writers

  // MessageRouter: the members, without the sender if the policy says so.
  method RecipientsFor(channel: ChannelRecord, sender: ClientId, echo: EchoPolicy) returns (recipients: seq<ClientId>)
    ensures Enumerates(recipients, Recipients(channel, sender, echo))
  {
    recipients := [];
    var todo := channel.members;
    while todo != {}
      invariant todo <= channel.members
      invariant Enumerates(recipients, Recipients(channel, sender, echo) - todo)
      decreases todo
    {
      var member :| member in todo;
      ghost var seen := Recipients(channel, sender, echo) - todo;
      todo := todo - {member};
      if echo == ExcludeSender && member == sender {
        assert Recipients(channel, sender, echo) - todo == seen;
        continue;
      }
      EnumeratesSnoc(recipients, seen, member);
      assert Recipients(channel, sender, echo) - todo == seen + {member};
      recipients := recipients + [member];
    }
    assert Recipients(channel, sender, echo) - {} == Recipients(channel, sender, echo);
  }

  // The values of everything the server changes.
  datatype Snapshot = Snapshot(stores: Stores, chat: Chat.ChatStreams, list: List.ListStreams)

  // The stores after some calls, with the calls passed on to both publishers.
  function Later(before: Snapshot, stores: Stores, calls: seq<Call>): Snapshot {
    Snapshot(stores,
             Chat.ApplyAll(before.chat, calls, before.stores.clients.historical),
             List.ApplyAll(before.list, calls))
  }

  lemma LaterNothing(before: Snapshot)
    ensures forall after :: Later(before, after, []) == before.(stores := after)
  {
  }

  lemma LaterTwice(before: Snapshot, middle: Stores, a: seq<Call>, after: Stores, b: seq<Call>)
    requires middle.clients.historical == before.stores.clients.historical
    ensures Later(Later(before, middle, a), after, b) == Later(before, after, a + b)
  {
    Chat.ApplyAllAppended(before.chat, a, b, before.stores.clients.historical);
    List.ApplyAllAppended(before.list, a, b);
  }

  lemma LaterOne(before: Snapshot, after: Stores, call: Call)
    ensures Later(before, after, [call])
      == Snapshot(after, Chat.Apply(before.chat, call, before.stores.clients.historical), List.Apply(before.list, call))
  {
    var names := before.stores.clients.historical;
    assert [call][..|[call]| - 1] == [];
    assert Chat.ApplyAll(before.chat, [call], names)
      == Chat.Apply(Chat.ApplyAll(before.chat, [call][..|[call]| - 1], names), call, names);
    assert List.ApplyAll(before.list, [call])
      == List.Apply(List.ApplyAll(before.list, [call][..|[call]| - 1]), call);
  }

  // Each call concerns one of the two publishers.
  lemma LaterChat(before: Snapshot, after: Stores, call: Call)
    requires !call.ChannelCreated? && !call.MemberCountChanged?
    ensures Later(before, after, [call])
      == Snapshot(after, Chat.Apply(before.chat, call, before.stores.clients.historical), before.list)
  {
    LaterOne(before, after, call);
  }

  lemma LaterList(before: Snapshot, after: Stores, call: Call)
    requires call.ChannelCreated? || call.MemberCountChanged?
    ensures Later(before, after, [call]) == Snapshot(after, before.chat, List.Apply(before.list, call))
  {
    LaterOne(before, after, call);
  }

  // What the methods below, and those that unregister a subscriber, do to the server
  // is what a step of the module Runs does to its world.
  lemma ServerStepIsRunStep(w: Runs.World, request: Runs.Request)
    ensures var out, now := Runs.Execute(w.stores, request), Snapshot(w.stores, w.chat, w.list);
      var next := Snapshot(Runs.Next(w, request).stores, Runs.Next(w, request).chat, Runs.Next(w, request).list);
      next == match request
        case SubscribeRequest(client, _, writer) =>
          var registered := now.chat.Register(client, writer, []);
          now.(chat := if out.result.Ok? then registered else registered.Unregister(client))
        case CancelRequest(client) => now.(chat := now.chat.Unregister(client))
        case WatchRequest(client, writer, listed) =>
          if out.result.Err? then now
          else now.(list := now.list.Register(client, writer, [List.Snapshot(List.SummariseAll(listed))]))
        case UnwatchRequest(client) => now.(list := now.list.Unregister(client))
        case _ => Later(now, out.stores, out.calls)
  {
    hide Runs.SavedBy; hide Runs.StalesAfter;
    if !request.SubscribeRequest? && !request.CancelRequest? && !request.WatchRequest? && !request.UnwatchRequest? {
      hide Runs.Execute;
    }
  }

  class BroadcastServer {
    const channels: InMemoryChannelRepository
    const clients: InMemoryClientRegistry
    const messages: InMemoryMessageRepository
    const publisher: Chat.GrpcClientPublisher
    const listPublisher: List.GrpcChannelListPublisher

    ghost predicate Valid()
      reads publisher.table, publisher.table.writers.Values
      reads listPublisher.table, listPublisher.table.writers.Values
    {
      && publisher.clientRegistry == clients && listPublisher.channels == channels
      && publisher.table as object != listPublisher.table
      && publisher.table.Valid() && listPublisher.table.Valid()
      && publisher.table.writers.Values !! listPublisher.table.writers.Values
    }

    ghost function Now(): Snapshot
      requires Valid()
      reads channels, clients, messages
      reads publisher.table, publisher.table.writers.Values
      reads listPublisher.table, listPublisher.table.writers.Values
    {
      Snapshot(Stores(channels.State(), clients.State(), messages.State()),
               publisher.table.State(), listPublisher.table.State())
    }

    // One channel is seeded when the server starts.
    constructor (historyCap: nat, general: ChannelId)
      ensures Valid()
      ensures Now() == Snapshot(Runs.Start(historyCap, general).stores,
                                Runs.Start(historyCap, general).chat, Runs.Start(historyCap, general).list)
    {
      var channels := new InMemoryChannelRepository();
      var clients := new InMemoryClientRegistry();
      var messages := new InMemoryMessageRepository(historyCap);
      var publisher := new Chat.GrpcClientPublisher(clients);
      var listPublisher := new List.GrpcChannelListPublisher(channels);
      var seeded := channels.Create(ChannelName("general"), general);
      this.channels, this.clients, this.messages := channels, clients, messages;
      this.publisher, this.listPublisher := publisher, listPublisher;
    }

    // ----- Leaving -----

    method RemoveMemberAndBroadcast(session: SessionRecord, channelId: ChannelId) returns (r: Result<Unit>)
      requires Valid()
      modifies channels, publisher.table`written
      ensures Valid()
      ensures var out := UseCases.RemoveMemberAndBroadcast(old(Now()).stores, session, channelId);
        Now() == Later(old(Now()), out.stores, out.calls) && r == out.result
    {
      hide Writers.WriterTable.Valid;
      hide Writers.WriterTable.State;
      hide Chat.Apply;
      hide Chat.ApplyAll;
      hide List.Apply;
      hide List.ApplyAll;
      ghost var start := Now();
      var found := channels.FindById(channelId);
      if found.Err? {
        LaterNothing(start);
        return Err(found.error);
      }
      var channel := new Channel.CopyOf(found.value);
      var removed := channel.RemoveMember(session.id);
      if removed.Err? {
        LaterNothing(start);
        return Err(removed.error);
      }
      channels.Save(channel.Record());
      publisher.BroadcastMemberLeft(channelId, channel.members, session.id, session.username);
      LaterChat(start, start.stores.(repo := channels.State()),
               MemberLeft(channelId, channel.members, session.id, session.username));
      r := Ok(Unit);
    }

    method LeaveChannel(clientId: ClientId, channelId: ChannelId) returns (r: Result<Unit>)
      requires Valid()
      modifies channels, clients`clientsById, publisher.table`written, listPublisher.table`written
      ensures Valid()
      ensures var out := Leave(old(Now()).stores, clientId, channelId);
        Now() == Later(old(Now()), out.stores, out.calls) && r == out.result
    {
      hide Writers.WriterTable.Valid;
      hide Writers.WriterTable.State;
      hide Chat.Apply;
      hide Chat.ApplyAll;
      hide List.Apply;
      hide List.ApplyAll;
      ghost var start := Now();
      var session := clients.FindById(clientId);
      if session.Err? {
        LaterNothing(start);
        return Err(session.error);
      }
      var removed := RemoveMemberAndBroadcast(session.value, channelId);
      if removed.Err? {
        return removed;
      }
      ghost var out := UseCases.RemoveMemberAndBroadcast(start.stores, session.value, channelId);
      var left := clients.LeaveChannelAtomic(clientId, channelId);
      ghost var middle := Now().stores;
      var channel := channels.FindById(channelId);
      assert channel.Ok?;
      ghost var call := MemberCountChanged(channelId, |channel.value.members|);
      LaterTwice(start, middle, out.calls, middle, [call]);
      LaterList(Later(start, middle, out.calls), middle, call);
      listPublisher.PublishMemberCountChanged(channelId, |channel.value.members|);
      r := Ok(Unit);
    }

    // ----- Joining -----

    method LeaveOtherChannels(session: SessionRecord, target: ChannelId)
      returns (r: Result<Unit>, ghost others: seq<ChannelId>)
      requires Valid()
      modifies channels, clients`clientsById, publisher.table`written, listPublisher.table`written
      ensures Valid() && r == Ok(Unit)
      ensures Enumerates(others, session.joined - {target})
      ensures var out := UseCases.LeaveOtherChannels(old(Now()).stores, session, others);
        Now() == Later(old(Now()), out.stores, out.calls)
    {
      hide Writers.WriterTable.Valid;
      hide Writers.WriterTable.State;
      hide Chat.Apply;
      hide Chat.ApplyAll;
      hide List.Apply;
      hide List.ApplyAll;
      ghost var start := Now();
      LaterNothing(start);
      others := [];
      var todo := session.joined - {target};
      while todo != {}
        invariant Valid() && todo <= session.joined - {target}
        invariant Enumerates(others, session.joined - {target} - todo)
        invariant var out := UseCases.LeaveOtherChannels(start.stores, session, others);
          Now() == Later(start, out.stores, out.calls)
        decreases todo
      {
        var other :| other in todo;
        ghost var soFar := UseCases.LeaveOtherChannels(start.stores, session, others);
        LeaveOne(session, other);
        ghost var one := UseCases.LeaveOne(soFar.stores, session, other);
        KeepsNames(start.stores, session, others);
        LaterTwice(start, soFar.stores, soFar.calls, one.stores, one.calls);
        assert (others + [other])[..|others|] == others;
        EnumeratesSnoc(others, session.joined - {target} - todo, other);
        assert session.joined - {target} - todo + {other} == session.joined - {target} - (todo - {other});
        others := others + [other];
        todo := todo - {other};
      }
      assert session.joined - {target} - {} == session.joined - {target};
      r := Ok(Unit);
    }

    // The body of the loop over the other channels.
    method LeaveOne(session: SessionRecord, other: ChannelId)
      requires Valid()
      modifies channels, clients`clientsById, publisher.table`written, listPublisher.table`written
      ensures Valid()
      ensures var out := UseCases.LeaveOne(old(Now()).stores, session, other);
        Now() == Later(old(Now()), out.stores, out.calls)
    {
      hide Writers.WriterTable.Valid;
      hide Writers.WriterTable.State;
      hide Chat.Apply;
      hide Chat.ApplyAll;
      hide List.Apply;
      hide List.ApplyAll;
      ghost var start := Now();
      var removed := RemoveMemberAndBroadcast(session, other);
      ghost var out := UseCases.RemoveMemberAndBroadcast(start.stores, session, other);
      assert removed.Err? ==> removed.error == NotAMember || removed.error == ChannelNotFound;
      var left := clients.LeaveChannelAtomic(session.id, other);
      assert left.Err? ==> left.error == ClientNotFound;
      ghost var middle := Now().stores;
      var found := channels.FindById(other);
      ghost var more := CountCalls(middle.repo, other);
      LaterTwice(start, middle, out.calls, middle, more);
      if found.Ok? {
        LaterList(Later(start, middle, out.calls), middle, MemberCountChanged(other, |found.value.members|));
        listPublisher.PublishMemberCountChanged(other, |found.value.members|);
      } else {
        LaterNothing(Later(start, middle, out.calls));
      }
    }

    // The part that both kinds of join share, from the loop on; the copy of the
    // target channel was read before it.
    method JoinLoaded(session: SessionRecord, record: ChannelRecord)
      returns (r: Result<Unit>, ghost others: seq<ChannelId>)
      requires Valid()
      modifies channels, clients`clientsById, publisher.table`written, listPublisher.table`written
      ensures Valid()
      ensures Enumerates(others, session.joined - {record.id})
      ensures var out := UseCases.JoinLoaded(old(Now()).stores, session, record, others);
        Now() == Later(old(Now()), out.stores, out.calls) && r == out.result
    {
      hide Writers.WriterTable.Valid;
      hide Writers.WriterTable.State;
      hide Chat.Apply;
      hide Chat.ApplyAll;
      hide List.Apply;
      hide List.ApplyAll;
      hide UseCases.Enter;
      hide UseCases.LeaveOtherChannels;
      ghost var start := Now();
      var left;
      left, others := LeaveOtherChannels(session, record.id);
      ghost var out := UseCases.LeaveOtherChannels(start.stores, session, others);
      KeepsNames(start.stores, session, others);
      r := Enter(session, record);
      ghost var entered := UseCases.Enter(out.stores, session, record);
      LaterTwice(start, out.stores, out.calls, entered.stores, entered.calls);
    }

    method Enter(session: SessionRecord, record: ChannelRecord) returns (r: Result<Unit>)
      requires Valid()
      modifies channels, clients`clientsById, publisher.table`written, listPublisher.table`written
      ensures Valid()
      ensures var out := UseCases.Enter(old(Now()).stores, session, record);
        Now() == Later(old(Now()), out.stores, out.calls) && r == out.result
    {
      hide Writers.WriterTable.Valid;
      hide Writers.WriterTable.State;
      hide Chat.Apply;
      hide List.Apply;
      hide Later;
      hide UseCases.Enter;
      hide Repo.Save;
      hide Registry.Join;
      ghost var start := Now();
      EnterInOneGo(start.stores, session, record);
      var channel := new Channel.CopyOf(record);
      var wasAlreadyMember := channel.HasMember(session.id);
      if !wasAlreadyMember {
        var added := channel.AddMember(session.id);
        channels.Save(channel.Record());
      }
      var joined := clients.JoinChannelAtomic(session.id, record.id);
      LaterNothing(start);
      if joined.Err? {
        return Err(joined.error);
      }
      if !wasAlreadyMember {
        LaterPair(start, Now().stores,
                  MemberJoined(record.id, channel.members, session.id, session.username),
                  MemberCountChanged(record.id, |channel.members|));
        AnnounceJoin(channel.id, channel.members, session);
      }
      r := Ok(Unit);
    }

    method AnnounceJoin(channelId: ChannelId, members: set<ClientId>, session: SessionRecord)
      requires Valid()
      modifies publisher.table`written, listPublisher.table`written
      ensures Valid()
      ensures Now() == old(Now()).(
        chat := Chat.Apply(old(Now()).chat, MemberJoined(channelId, members, session.id, session.username),
                           old(Now()).stores.clients.historical),
        list := List.Apply(old(Now()).list, MemberCountChanged(channelId, |members|)))
    {
      hide Writers.WriterTable.Valid;
      hide Writers.WriterTable.State;
      hide Chat.Apply;
      hide List.Apply;
      publisher.BroadcastMemberJoined(channelId, members, session.id, session.username);
      listPublisher.PublishMemberCountChanged(channelId, |members|);
    }

    method JoinChannel(clientId: ClientId, channelId: ChannelId) returns (r: Result<Unit>, ghost others: seq<ChannelId>)
      requires Valid() && clients.State().Inv() && channels.State().Inv()
      modifies channels, clients`clientsById, publisher.table`written, listPublisher.table`written
      ensures Valid()
      ensures r.Ok? ==> Membership.OrdersOthers(old(Now()).stores, clientId, channelId, others)
      ensures var out := Join(old(Now()).stores, clientId, channelId, others);
        Now() == Later(old(Now()), out.stores, out.calls) && r == out.result
    {
      hide Writers.WriterTable.Valid;
      hide Writers.WriterTable.State;
      hide Chat.ApplyAll;
      hide List.ApplyAll;
      hide UseCases.JoinLoaded;
      others := [];
      LaterNothing(Now());
      var session := clients.FindById(clientId);
      if session.Err? {
        return Err(session.error), [];
      }
      var channel := channels.FindById(channelId);
      if channel.Err? {
        return Err(channel.error), [];
      }
      r, others := JoinLoaded(session.value, channel.value);
    }

    method JoinChannelByName(clientId: ClientId, name: string)
      returns (r: Result<ChannelId>, ghost others: seq<ChannelId>)
      requires Valid()
      modifies channels, clients`clientsById, publisher.table`written, listPublisher.table`written
      ensures Valid()
      ensures r.Ok? ==> Membership.OrdersOthers(old(Now()).stores, clientId, r.value, others)
      ensures var out := JoinByName(old(Now()).stores, clientId, name, others);
        Now() == Later(old(Now()), out.stores, out.calls) && r == out.result
    {
      hide Writers.WriterTable.Valid;
      hide Writers.WriterTable.State;
      hide Chat.ApplyAll;
      hide List.ApplyAll;
      hide UseCases.JoinLoaded;
      others := [];
      LaterNothing(Now());
      var session := clients.FindById(clientId);
      if session.Err? {
        return Err(session.error), [];
      }
      var trimmed := Text.TrimView(name);
      var valid := Text.CreateChannelName(trimmed);
      if valid.None? {
        return Err(InvalidChannelName), [];
      }
      var existing := channels.FindByName(valid.value);
      if existing.Err? {
        return Err(existing.error), [];
      }
      var joined;
      joined, others := JoinLoaded(session.value, existing.value);
      r := if joined.Ok? then Ok(existing.value.id) else Err(joined.error);
    }

    // ----- The other requests -----

    method Connect(username: string, newId: ClientId, now: int) returns (r: Result<ClientId>)
      requires Valid()
      modifies clients
      ensures Valid()
      ensures var out := UseCases.Connect(old(Now()).stores, username, newId, now);
        Now() == old(Now()).(stores := out.stores) && r == out.result
    {
      hide Writers.WriterTable.Valid;
      hide Writers.WriterTable.State;
      hide Text.Trim;
      hide Text.CreateUsername;
      var trimmed := Text.TrimView(username);
      var valid := Text.CreateUsername(trimmed);
      if valid.None? {
        return Err(InvalidUsername);
      }
      var session := clients.RegisterClient(valid.value, newId, now);
      r := if session.Ok? then Ok(session.value.id) else Err(session.error);
    }

    method Heartbeat(clientId: ClientId, now: int) returns (r: Result<Unit>)
      requires Valid()
      modifies clients`clientsById
      ensures Valid()
      ensures var out := UseCases.Heartbeat(old(Now()).stores, clientId, now);
        Now() == old(Now()).(stores := out.stores) && r == out.result
    {
      r := clients.TouchHeartbeat(clientId, now);
    }

    method CreateChannel(clientId: ClientId, name: string, newId: ChannelId) returns (r: Result<ChannelId>)
      requires Valid()
      modifies channels, listPublisher.table`written
      ensures Valid()
      ensures var out := UseCases.CreateChannel(old(Now()).stores, clientId, name, newId);
        Now() == Later(old(Now()), out.stores, out.calls) && r == out.result
    {
      hide Writers.WriterTable.Valid;
      hide Writers.WriterTable.State;
      hide Chat.Apply;
      hide Chat.ApplyAll;
      hide List.Apply;
      hide List.ApplyAll;
      ghost var start := Now();
      LaterNothing(start);
      var session := clients.FindById(clientId);
      if session.Err? {
        return Err(session.error);
      }
      var trimmed := Text.TrimView(name);
      var valid := Text.CreateChannelName(trimmed);
      if valid.None? {
        return Err(InvalidChannelName);
      }
      var created := channels.Create(valid.value, newId);
      if created.Err? {
        return Err(created.error);
      }
      LaterList(start, Now().stores, ChannelCreated(created.value));
      listPublisher.PublishChannelCreated(created.value);
      r := Ok(created.value.id);
    }

    method SendMessage(sender: ClientId, channelId: ChannelId, content: string, newId: MessageId, now: int)
      returns (r: Result<MessageId>, ghost order: seq<ClientId>)
      requires Valid()
      modifies messages, publisher.table`written
      ensures Valid()
      ensures r.Ok? ==>
        && channelId in old(Now()).stores.repo.byId
        && Enumerates(order, Recipients(old(Now()).stores.repo.byId[channelId], sender, IncludeSender))
      ensures var out := Send(old(Now()).stores, sender, channelId, content, newId, now, order);
        Now() == Later(old(Now()), out.stores, out.calls) && r == out.result
    {
      hide Writers.WriterTable.Valid;
      hide Writers.WriterTable.State;
      hide Chat.Apply;
      hide Chat.ApplyAll;
      hide List.Apply;
      hide List.ApplyAll;
      hide Text.CreateContent;
      hide Buffers.Save;
      hide PublishCalls;
      order := [];
      LaterNothing(Now());
      var session := clients.FindById(sender);
      if session.Err? {
        return Err(session.error), [];
      }
      var channel := channels.FindById(channelId);
      if channel.Err? {
        return Err(channel.error), [];
      }
      if sender !in channel.value.members {
        return Err(NotAMember), [];
      }
      var valid := Text.CreateContent(content);
      if valid.Err? {
        return Err(valid.error), [];
      }
      var message := Message(newId, sender, channelId, valid.value, now);
      messages.Save(message);
      var recipients := RecipientsFor(channel.value, sender, IncludeSender);
      order := recipients;
      PublishToEach(recipients, message);
      r := Ok(newId);
    }

    method PublishToEach(recipients: seq<ClientId>, message: Message)
      requires Valid()
      modifies publisher.table`written
      ensures Valid()
      ensures Now() == Later(old(Now()), old(Now()).stores, PublishCalls(recipients, message))
    {
      hide Writers.WriterTable.Valid;
      hide Writers.WriterTable.State;
      hide Chat.Apply;
      hide Chat.ApplyAll;
      hide List.Apply;
      hide List.ApplyAll;
      ghost var start := Now();
      ghost var calls := PublishCalls(recipients, message);
      LaterNothing(start);
      for i := 0 to |recipients|
        invariant Valid() && Now() == Later(start, start.stores, calls[..i])
      {
        assert calls[..i + 1] == calls[..i] + [Published(recipients[i], message)];
        LaterTwice(start, start.stores, calls[..i], start.stores, [Published(recipients[i], message)]);
        LaterChat(Later(start, start.stores, calls[..i]), start.stores, Published(recipients[i], message));
        publisher.Publish(recipients[i], message);
      }
      assert calls[..|recipients|] == calls;
    }

    // ----- Going away -----

    // The erased writer entry is disarmed in place; no other object is touched.
    method Unsubscribe(clientId: ClientId)
      requires Valid()
      modifies publisher.table`writers, publisher.table.writers.Values
      ensures Valid()
      ensures publisher.table.writers.Values <= old(publisher.table.writers.Values)
      ensures Now() == Later(old(Now()), old(Now()).stores, [Unsubscribed(clientId)])
    {
      LaterChat(Now(), Now().stores, Unsubscribed(clientId));
      publisher.UnregisterSubscriber(clientId);
    }

    method LeaveEach(clientId: ClientId, joined: set<ChannelId>) returns (ghost order: seq<ChannelId>)
      requires Valid()
      modifies channels, clients`clientsById, publisher.table`written, listPublisher.table`written
      ensures Valid() && publisher.table.writers == old(publisher.table.writers)
      ensures Enumerates(order, joined)
      ensures var (stores, calls) := UseCases.LeaveEach(old(Now()).stores, clientId, order);
        Now() == Later(old(Now()), stores, calls)
    {
      hide Writers.WriterTable.Valid;
      hide Writers.WriterTable.State;
      hide Leave;
      ghost var start := Now();
      LaterNothing(start);
      order := [];
      var todo := joined;
      while todo != {}
        invariant Valid() && publisher.table.writers == old(publisher.table.writers)
        invariant todo <= joined && Enumerates(order, joined - todo)
        invariant var (stores, calls) := UseCases.LeaveEach(start.stores, clientId, order);
          Now() == Later(start, stores, calls)
        decreases todo
      {
        var channelId :| channelId in todo;
        ghost var (stores, calls) := UseCases.LeaveEach(start.stores, clientId, order);
        var left := LeaveChannel(clientId, channelId);
        ghost var out := Leave(stores, clientId, channelId);
        LeaveEachKeepsNames(start.stores, clientId, order);
        LaterTwice(start, stores, calls, out.stores, out.calls);
        assert (order + [channelId])[..|order|] == order;
        EnumeratesSnoc(order, joined - todo, channelId);
        assert joined - todo + {channelId} == joined - (todo - {channelId});
        order := order + [channelId];
        todo := todo - {channelId};
      }
      assert joined - {} == joined;
    }

    method Disconnect(clientId: ClientId) returns (r: Result<Unit>, ghost order: seq<ChannelId>)
      requires Valid()
      modifies channels, clients, publisher.table, publisher.table.writers.Values, listPublisher.table`written
      ensures Valid()
      ensures clientId in old(Now()).stores.clients.byId ==>
        Enumerates(order, old(Now()).stores.clients.byId[clientId].joined)
      ensures var out := UseCases.Disconnect(old(Now()).stores, clientId, order);
        Now() == Later(old(Now()), out.stores, out.calls) && r == out.result
    {
      hide Writers.WriterTable.Valid;
      hide Writers.WriterTable.State;
      hide UseCases.LeaveEach;
      order := [];
      ghost var start := Now();
      LaterNothing(start);
      var session := clients.FindById(clientId);
      if session.Err? {
        return Err(session.error), [];
      }
      order := LeaveEach(clientId, session.value.joined);
      ghost var (left, calls) := UseCases.LeaveEach(start.stores, clientId, order);
      LeaveEachKeepsNames(start.stores, clientId, order);
      r := clients.Remove(clientId);
      if r.Err? {
        return;
      }
      ghost var after := Now().stores;
      LaterTwice(start, after, calls, after, [Unsubscribed(clientId)]);
      Unsubscribe(clientId);
    }

    // The inner loop of the sweep: failed removals are ignored.
    method RemoveFromEach(session: SessionRecord) returns (ghost order: seq<ChannelId>)
      requires Valid()
      modifies channels, publisher.table`written
      ensures Valid() && publisher.table.writers == old(publisher.table.writers)
      ensures Enumerates(order, session.joined)
      ensures var (stores, calls) := UseCases.RemoveFromEach(old(Now()).stores, session, order);
        Now() == Later(old(Now()), stores, calls)
    {
      hide Writers.WriterTable.Valid;
      hide Writers.WriterTable.State;
      hide UseCases.RemoveMemberAndBroadcast;
      ghost var start := Now();
      LaterNothing(start);
      order := [];
      var todo := session.joined;
      while todo != {}
        invariant Valid() && publisher.table.writers == old(publisher.table.writers)
        invariant todo <= session.joined && Enumerates(order, session.joined - todo)
        invariant var (stores, calls) := UseCases.RemoveFromEach(start.stores, session, order);
          Now() == Later(start, stores, calls)
        decreases todo
      {
        var channelId :| channelId in todo;
        ghost var (stores, calls) := UseCases.RemoveFromEach(start.stores, session, order);
        var removed := RemoveMemberAndBroadcast(session, channelId);
        ghost var out := UseCases.RemoveMemberAndBroadcast(stores, session, channelId);
        RemoveFromEachKeepsClients(start.stores, session, order);
        LaterTwice(start, stores, calls, out.stores, out.calls);
        assert (order + [channelId])[..|order|] == order;
        EnumeratesSnoc(order, session.joined - todo, channelId);
        assert session.joined - todo + {channelId} == session.joined - (todo - {channelId});
        order := order + [channelId];
        todo := todo - {channelId};
      }
      assert session.joined - {} == session.joined;
    }

    method ExpireOne(session: SessionRecord) returns (ghost order: seq<ChannelId>)
      requires Valid()
      modifies channels, clients, publisher.table, publisher.table.writers.Values
      ensures Valid() && publisher.table.writers.Values <= old(publisher.table.writers.Values)
      ensures Enumerates(order, session.joined)
      ensures var (stores, calls) := UseCases.ExpireOne(old(Now()).stores, Doomed(session, order));
        Now() == Later(old(Now()), stores, calls)
    {
      hide Writers.WriterTable.Valid;
      hide Writers.WriterTable.State;
      hide UseCases.RemoveFromEach;
      ghost var start := Now();
      order := RemoveFromEach(session);
      ghost var (removed, calls) := UseCases.RemoveFromEach(start.stores, session, order);
      RemoveFromEachKeepsClients(start.stores, session, order);
      var r := clients.Remove(session.id);
      ghost var after := Now().stores;
      LaterTwice(start, after, calls, after, [Unsubscribed(session.id)]);
      Unsubscribe(session.id);
    }

    // The sweep over the sessions collected before it; the sessions are copies.
    method ExpireInactiveClients(deadline: int) returns (count: nat, ghost doomed: seq<Doomed>)
      requires Valid() && clients.State().Inv()
      modifies channels, clients, publisher.table, publisher.table.writers.Values
      ensures Valid()
      ensures Collected(old(Now()).stores, deadline, doomed) && count == |doomed|
      ensures var (stores, calls) := Sweep(old(Now()).stores, doomed);
        Now() == Later(old(Now()), stores, calls)
    {
      hide Writers.WriterTable.Valid;
      hide Writers.WriterTable.State;
      hide UseCases.ExpireOne;
      ghost var start := Now();
      LaterNothing(start);
      var expired, order := clients.CollectExpired(deadline);
      doomed, count := [], 0;
      for i := 0 to |expired|
        invariant Valid() && count == i == |doomed|
        invariant publisher.table.writers.Values <= old(publisher.table.writers.Values)
        invariant forall k :: 0 <= k < i ==>
          doomed[k].session == expired[k] && Enumerates(doomed[k].channels, expired[k].joined)
        invariant var (stores, calls) := Sweep(start.stores, doomed);
          Now() == Later(start, stores, calls)
      {
        ghost var (stores, calls) := Sweep(start.stores, doomed);
        ghost var channelOrder := ExpireOne(expired[i]);
        ghost var one := Doomed(expired[i], channelOrder);
        ghost var (after, more) := UseCases.ExpireOne(stores, one);
        SweepKeepsNames(start.stores, doomed);
        LaterTwice(start, stores, calls, after, more);
        assert (doomed + [one])[..|doomed|] == doomed;
        doomed := doomed + [one];
        count := count + 1;
      }
      assert Ids(doomed) == order;
    }

    // ----- Subscriptions -----

    // The writer is registered before the membership check and unregistered again
    // when the check fails.
    method SubscribeToChannel(clientId: ClientId, channelId: ChannelId, writer: Writers.WriterId)
      returns (r: Result<Unit>)
      requires Valid() && writer !in publisher.table.written
      modifies publisher.table
      ensures Valid()
      ensures r == Runs.Subscribe(old(Now()).stores, clientId, channelId)
      ensures r.Ok? <==> Membership.IsMember(old(Now()).stores, clientId, channelId)
      ensures var registered := old(Now()).chat.Register(clientId, writer, []);
        Now() == old(Now()).(chat := if r.Ok? then registered else registered.Unregister(clientId))
    {
      hide Writers.WriterTable.Valid;
      hide Writers.WriterTable.State;
      hide Writers.Streams.Register;
      hide Writers.Streams.Unregister;
      publisher.RegisterSubscriber(clientId, writer);
      var channel := channels.FindById(channelId);
      r := if channel.Err? then Err(channel.error)
           else if clientId !in channel.value.members then Err(NotAMember)
           else Ok(Unit);
      if r.Err? {
        publisher.UnregisterSubscriber(clientId);
      }
    }

    method SubscribeToChannelList(clientId: ClientId, writer: Writers.WriterId)
      returns (r: Result<Unit>, ghost listed: seq<ChannelRecord>)
      requires Valid() && writer !in listPublisher.table.written
      modifies listPublisher.table
      ensures Valid()
      ensures r == if clientId in old(Now()).stores.clients.byId then Ok(Unit) else Err(ClientNotFound)
      ensures r.Ok? ==> Lists(listed, old(Now()).stores.repo)
      ensures Now() == if r.Err? then old(Now())
        else old(Now()).(list := old(Now()).list.Register(clientId, writer, [List.Snapshot(List.SummariseAll(listed))]))
    {
      hide Writers.WriterTable.Valid;
      hide Writers.WriterTable.State;
      hide Writers.Streams.Register;
      hide Lists;
      hide List.SummariseAll;
      listed := [];
      var client := clients.FindById(clientId);
      if client.Err? {
        return Err(client.error), [];
      }
      listed := listPublisher.RegisterSubscriberWithSnapshot(clientId, writer);
      r := Ok(Unit);
    }
  }

  lemma {:induction false} LeaveEachKeepsNames(s: Stores, client: ClientId, channels: seq<ChannelId>)
    ensures LeaveEach(s, client, channels).0.clients.historical == s.clients.historical
  {
    if channels != [] {
      LeaveEachKeepsNames(s, client, channels[..|channels| - 1]);
    }
  }

  lemma {:induction false} RemoveFromEachKeepsClients(s: Stores, session: SessionRecord, channels: seq<ChannelId>)
    ensures RemoveFromEach(s, session, channels).0.clients == s.clients
  {
    if channels != [] {
      RemoveFromEachKeepsClients(s, session, channels[..|channels| - 1]);
    }
  }

  lemma {:induction false} SweepKeepsNames(s: Stores, doomed: seq<Doomed>)
    ensures Sweep(s, doomed).0.clients.historical == s.clients.historical
  {
    if doomed != [] {
      var front, last := doomed[..|doomed| - 1], doomed[|doomed| - 1];
      SweepKeepsNames(s, front);
      RemoveFromEachKeepsClients(Sweep(s, front).0, last.session, last.channels);
    }
  }

  lemma {:induction false} KeepsNames(s: Stores, session: SessionRecord, others: seq<ChannelId>)
    ensures LeaveOtherChannels(s, session, others).stores.clients.historical == s.clients.historical
  {
    if others != [] {
      KeepsNames(s, session, others[..|others| - 1]);
    }
  }

  // Both stores after entering a channel; a failed registry update changes nothing there.
  lemma EnterInOneGo(s: Stores, session: SessionRecord, channel: ChannelRecord)
    ensures var members, already := channel.members + {session.id}, session.id in channel.members;
      var (clients, r) := s.clients.Join(session.id, channel.id);
      Enter(s, session, channel)
        == Outcome(Stores(if already then s.repo else s.repo.Save(channel.(members := members)), clients, s.messages),
                   if already || r.Err? then []
                   else [MemberJoined(channel.id, members, session.id, session.username),
                         MemberCountChanged(channel.id, |members|)],
                   if r.Err? then Err(r.error) else Ok(Unit))
  {
  }

  lemma LaterPair(start: Snapshot, after: Stores, first: Call, second: Call)
    requires after.clients.historical == start.stores.clients.historical
    requires first.MemberJoined? && second.MemberCountChanged?
    ensures Later(start, after, [first, second])
      == Snapshot(after,
                  Chat.Apply(start.chat, first, start.stores.clients.historical),
                  List.Apply(start.list, second))
  {
    assert [first, second] == [first] + [second];
    LaterTwice(start, after, [first], after, [second]);
    LaterChat(start, after, first);
    LaterList(Later(start, after, [first]), after, second);
  }
}

/**
 What a subscriber hears of joins and leaves: exactly the changes to the members of
 the channel it is in, so that it can keep the member set by itself.
 */
module Announcements {
  import opened Core
  import opened ChannelRepository
  import opened ClientRegistry
  import opened MessageRepository
  import opened UseCases
  import opened Membership
  import opened Expiry
  import opened Writers
  import opened Runs
  import opened Delivery
  import Chat = ChatPublisher
  import Text

  // The announcements of a stream, in order; messages left out.
  function Notices(events: seq<Chat.ChatEvent>): seq<Chat.ChatEvent> {
    if events == [] then []
    else
      var last := events[|events| - 1];
      Notices(events[..|events| - 1]) + if last.MessageEvent? then [] else [last]
  }

  lemma NoticesSnoc(events: seq<Chat.ChatEvent>, event: Chat.ChatEvent)
    ensures Notices(events + [event]) == Notices(events) + if event.MessageEvent? then [] else [event]
  {
    assert (events + [event])[..|events|] == events;
  }

  // ----- Which announcements of some calls concern a subscriber -----

  function Told(call: Call, c: ClientId): seq<Chat.ChatEvent> {
    match call
    case MemberJoined(channel, recipients, client, username) =>
      if c in recipients then [Chat.JoinedEvent(channel, client, username)] else []
    case MemberLeft(channel, recipients, client, username) =>
      if c in recipients then [Chat.LeftEvent(channel, client, username)] else []
    case _ => []
  }

  function ToldAll(calls: seq<Call>, c: ClientId): seq<Chat.ChatEvent> {
    if calls == [] then [] else ToldAll(calls[..|calls| - 1], c) + Told(calls[|calls| - 1], c)
  }

  lemma {:induction false} ToldJoined(a: seq<Call>, b: seq<Call>, c: ClientId)
    ensures ToldAll(a + b, c) == ToldAll(a, c) + ToldAll(b, c)
    decreases |b|
  {
    if b == [] {
      assert a + b == a;
    } else {
      assert (a + b)[..|a + b| - 1] == a + b[..|b| - 1];
      ToldJoined(a, b[..|b| - 1], c);
    }
  }

  lemma ToldOne(call: Call, c: ClientId)
    ensures ToldAll([call], c) == Told(call, c) && ToldAll([], c) == []
  {
    assert [call][..0] == [];
  }

  lemma CallReaches(s: Chat.ChatStreams, call: Call, names: Chat.Names, c: ClientId)
    requires s.Inv() && c in Chat.Apply(s, call, names).writers
    ensures var s' := Chat.Apply(s, call, names);
      && s'.Inv() && c in s.writers && s'.writers[c] == s.writers[c] && s.writers[c] in s'.written
      && Notices(s'.written[s.writers[c]]) == Notices(s.written[s.writers[c]]) + Told(call, c)
  {
    var was := s.written[s.writers[c]];
    match call {
      case MemberJoined(channel, recipients, client, username) =>
        var event := Chat.JoinedEvent(channel, client, username);
        NoticesSnoc(was, event);
        DeliverToOne(s, recipients, event, c);
      case MemberLeft(channel, recipients, client, username) =>
        var event := Chat.LeftEvent(channel, client, username);
        NoticesSnoc(was, event);
        DeliverToOne(s, recipients, event, c);
      case Published(recipient, message) =>
        NoticesSnoc(was, Chat.MessageToEvent(message, names));
        DeliverToOne(s, {recipient}, Chat.MessageToEvent(message, names), c);
      case _ =>
    }
    assert was + [] == was;
  }

  lemma Regroup<T>(a: seq<T>, b: seq<T>, c: seq<T>)
    ensures a + b + c == a + (b + c) && a + [] == a
  {
  }

  lemma {:induction false} CallsReach(s: Chat.ChatStreams, calls: seq<Call>, names: Chat.Names, c: ClientId)
    requires s.Inv() && c in Chat.ApplyAll(s, calls, names).writers
    ensures var s' := Chat.ApplyAll(s, calls, names);
      && s'.Inv() && c in s.writers && s'.writers[c] == s.writers[c] && s.writers[c] in s'.written
      && Notices(s'.written[s.writers[c]]) == Notices(s.written[s.writers[c]]) + ToldAll(calls, c)
  {
    hide Chat.Apply; hide Notices; hide Told;
    if calls == [] {
      Regroup(Notices(s.written[s.writers[c]]), [], []);
    } else {
      var front, last := calls[..|calls| - 1], calls[|calls| - 1];
      DeliveriesKeepInv(s, front, names);
      hide Streams.Inv;
      CallReaches(Chat.ApplyAll(s, front, names), last, names, c);
      CallsReach(s, front, names, c);
      Regroup(Notices(s.written[s.writers[c]]), ToldAll(front, c), Told(last, c));
    }
  }

  // ----- Changes of the members of one channel -----

  // The announcement is true of the step: somebody joined or left the channel, under
  // the name it is registered with.
  ghost predicate IsChange(s: Stores, s': Stores, z: ChannelId, event: Chat.ChatEvent) {
    match event
    case JoinedEvent(channel, d, username) =>
      channel == z && !IsMember(s, d, z) && IsMember(s', d, z) && s'.clients.LookupUsername(d) == Ok(username)
    case LeftEvent(channel, d, username) =>
      channel == z && IsMember(s, d, z) && !IsMember(s', d, z) && s'.clients.LookupUsername(d) == Ok(username)
    case MessageEvent(_, _) => false
  }

  // news tells of every change of the channel, once, and of nothing else.
  ghost predicate TellsChanges(s: Stores, s': Stores, z: ChannelId, news: seq<Chat.ChatEvent>) {
    NoDup(news) && forall event :: event in news <==> IsChange(s, s', z, event)
  }

  // Somebody in the channel c is in afterwards hears of its changes, and somebody who is
  // in none of nothing.
  ghost predicate Informs(s: Stores, s': Stores, c: ClientId, news: seq<Chat.ChatEvent>) {
    && (forall z :: IsMember(s', c, z) ==> TellsChanges(s, s', z, news))
    && ((forall z :: !IsMember(s', c, z)) ==> news == [])
  }

  lemma SameMembersInform(s: Stores, s': Stores, c: ClientId)
    requires forall d, z :: IsMember(s', d, z) <==> IsMember(s, d, z)
    ensures Informs(s, s', c, [])
  {
  }

  // One client joins z, or leaves it, and the channel is otherwise as it was.
  lemma OneJoins(s: Stores, s': Stores, z: ChannelId, d: ClientId, username: Username)
    requires !IsMember(s, d, z) && IsMember(s', d, z) && s'.clients.LookupUsername(d) == Ok(username)
    requires forall x :: x != d ==> (IsMember(s', x, z) <==> IsMember(s, x, z))
    ensures TellsChanges(s, s', z, [Chat.JoinedEvent(z, d, username)])
  {
  }

  lemma OneLeaves(s: Stores, s': Stores, z: ChannelId, d: ClientId, username: Username)
    requires IsMember(s, d, z) && !IsMember(s', d, z) && s'.clients.LookupUsername(d) == Ok(username)
    requires forall x :: x != d ==> (IsMember(s', x, z) <==> IsMember(s, x, z))
    ensures TellsChanges(s, s', z, [Chat.LeftEvent(z, d, username)])
  {
  }

  lemma NobodyMoves(s: Stores, s': Stores, z: ChannelId)
    requires forall x :: IsMember(s', x, z) <==> IsMember(s, x, z)
    ensures TellsChanges(s, s', z, [])
  {
  }

  ghost predicate InOne(s: Stores) {
    Linked(s) && AtMostOneChannel(s)
  }

  lemma OneRoom(s: Stores, c: ClientId, y: ChannelId, z: ChannelId)
    requires InOne(s) && IsMember(s, c, y) && IsMember(s, c, z)
    ensures y == z
  {
    assert HasJoined(s, c, y) && HasJoined(s, c, z);
  }

  lemma TwoDiffer<T>(order: seq<T>)
    requires NoDup(order) && |order| > 1
    ensures exists y, z :: y in order && z in order && y != z
  {
    assert order[0] in order && order[1] in order;
  }

  // A session is in one channel or in none, and so is any order of its channels.
  lemma FewChannels(s: Stores, client: ClientId, order: seq<ChannelId>, kept: set<ChannelId>)
    requires InOne(s) && client in s.clients.byId && Enumerates(order, s.clients.byId[client].joined - kept)
    ensures |order| <= 1
    ensures forall z :: z in order ==> IsMember(s, client, z) && z !in kept
    ensures forall y, z :: y in order && IsMember(s, client, z) ==> y == z
    ensures order == [] ==> forall z :: IsMember(s, client, z) ==> z in kept
  {
    assert forall z :: IsMember(s, client, z) <==> HasJoined(s, client, z);
    assert forall z :: z in order <==> z in Elems(order);
    if |order| > 1 {
      TwoDiffer(order);
      var y, z :| y in order && z in order && y != z;
      OneRoom(s, client, y, z);
    }
    forall y, z | y in order && IsMember(s, client, z) ensures y == z {
      assert HasJoined(s, client, y);
      OneRoom(s, client, y, z);
    }
    forall z | order == [] && IsMember(s, client, z) ensures z in kept {
      assert HasJoined(s, client, z) && z !in Elems(order);
    }
  }

  lemma NamedOnRecord(s: Stores, client: ClientId)
    requires InOne(s) && client in s.clients.byId
    ensures s.clients.byId[client].id == client
    ensures s.clients.LookupUsername(client) == Ok(s.clients.byId[client].username)
  {
  }

  // ----- Each kind of request -----

  lemma ToldOfLeave(s: Stores, session: SessionRecord, channel: ChannelId, c: ClientId)
    requires channel in s.repo.byId
    ensures ToldAll(LeaveCalls(s, session, channel), c)
      == if IsMember(s, c, channel) && c != session.id then [Chat.LeftEvent(channel, session.id, session.username)]
         else []
  {
    var rest := s.repo.byId[channel].members - {session.id};
    var left, counted := MemberLeft(channel, rest, session.id, session.username), MemberCountChanged(channel, |rest|);
    ToldJoined([left], [counted], c);
    ToldOne(left, c);
    ToldOne(counted, c);
    assert LeaveCalls(s, session, channel) == [left] + [counted];
  }

  lemma LeaveInforms(s: Stores, client: ClientId, channel: ChannelId, c: ClientId)
    requires InOne(s) && client in s.clients.byId && IsMember(s, client, channel)
    ensures Informs(s, Detached(s, client, {channel}), c, ToldAll(LeaveCalls(s, s.clients.byId[client], channel), c))
  {
    var s', session := Detached(s, client, {channel}), s.clients.byId[client];
    NamedOnRecord(s, client);
    ToldOfLeave(s, session, channel, c);
    assert forall x, z :: IsMember(s', x, z) <==> IsMember(s, x, z) && !(x == client && z == channel);
    hide IsMember; hide InOne; hide TellsChanges; hide LeaveCalls; hide ToldAll;
    forall z | IsMember(s', c, z) ensures TellsChanges(s, s', z, ToldAll(LeaveCalls(s, session, channel), c)) {
      if z == channel {
        OneLeaves(s, s', channel, client, session.username);
      } else {
        if IsMember(s, c, channel) {
          OneRoom(s, c, channel, z);
        }
        NobodyMoves(s, s', z);
      }
    }
    if c != client && IsMember(s, c, channel) {
      assert IsMember(s', c, channel);
    }
  }

  lemma ToldOfEntering(target: ChannelId, members: set<ClientId>, session: SessionRecord, count: nat, c: ClientId)
    ensures ToldAll([MemberJoined(target, members, session.id, session.username), MemberCountChanged(target, count)], c)
      == if c in members then [Chat.JoinedEvent(target, session.id, session.username)] else []
  {
    var joined := MemberJoined(target, members, session.id, session.username);
    var counted := MemberCountChanged(target, count);
    ToldJoined([joined], [counted], c);
    ToldOne(joined, c);
    ToldOne(counted, c);
    assert [joined, counted] == [joined] + [counted];
  }

  lemma ToldOfLeaving(s: Stores, session: SessionRecord, left: seq<ChannelId>, c: ClientId)
    requires |left| <= 1 && forall channel :: channel in left ==> channel in s.repo.byId
    ensures ToldAll(LeaveAllCalls(s, session, left), c)
      == if left != [] && IsMember(s, c, left[0]) && c != session.id
         then [Chat.LeftEvent(left[0], session.id, session.username)] else []
  {
    hide LeaveCalls;
    if left != [] {
      assert left[0] in left && left[..0] == [];
      assert LeaveAllCalls(s, session, left) == LeaveCalls(s, session, left[0]);
      ToldOfLeave(s, session, left[0], c);
    } else {
      ToldOne(Unsubscribed(c), c);
    }
  }

  // Who is where after a join.
  lemma MembersAfterJoin(s: Stores, client: ClientId, target: ChannelId)
    requires InOne(s) && client in s.clients.byId && target in s.repo.byId
    ensures var s' := InOnly(s, client, target);
      && (forall x, z :: x != client ==> (IsMember(s', x, z) <==> IsMember(s, x, z)))
      && (forall z :: IsMember(s', client, z) <==> z == target)
      && s'.clients.LookupUsername(client) == Ok(s.clients.byId[client].username)
  {
    NamedOnRecord(s, client);
  }

  // What a join tells c, if the joiner leaves the channels in left for it.
  ghost function JoinNews(s: Stores, session: SessionRecord, target: ChannelId, left: seq<ChannelId>, c: ClientId)
    : seq<Chat.ChatEvent>
  {
    (if left != [] && IsMember(s, c, left[0]) && c != session.id
     then [Chat.LeftEvent(left[0], session.id, session.username)] else [])
    + if IsMember(s, session.id, target) || !(IsMember(s, c, target) || c == session.id) then []
      else [Chat.JoinedEvent(target, session.id, session.username)]
  }

  lemma JoinTells(s: Stores, session: SessionRecord, target: ChannelId, others: seq<ChannelId>, c: ClientId)
    requires target in s.repo.byId && |others| <= 1 && forall channel :: channel in others ==> channel in s.repo.byId
    ensures ToldAll(JoinCalls(s, session, target, others), c) == JoinNews(s, session, target, others, c)
  {
    hide ToldAll; hide LeaveAllCalls;
    var members := s.repo.byId[target].members + {session.id};
    var entered := if IsMember(s, session.id, target) then []
                   else [MemberJoined(target, members, session.id, session.username),
                         MemberCountChanged(target, |members|)];
    ToldJoined(LeaveAllCalls(s, session, others), entered, c);
    ToldOfLeaving(s, session, others, c);
    ToldOfEntering(target, members, session, |members|, c);
    ToldOne(Unsubscribed(c), c);
  }

  lemma JoinInforms(s: Stores, client: ClientId, target: ChannelId, others: seq<ChannelId>, c: ClientId)
    requires InOne(s) && client in s.clients.byId && target in s.repo.byId && OrdersOthers(s, client, target, others)
    requires forall channel :: channel in others ==> channel in s.repo.byId
    ensures Informs(s, InOnly(s, client, target), c, ToldAll(JoinCalls(s, s.clients.byId[client], target, others), c))
  {
    var s', session := InOnly(s, client, target), s.clients.byId[client];
    FewChannels(s, client, others, {target});
    NamedOnRecord(s, client);
    MembersAfterJoin(s, client, target);
    JoinTells(s, session, target, others, c);
    hide InOnly; hide InOne; hide TellsChanges; hide ToldAll; hide JoinCalls; hide IsMember; hide OrdersOthers;
    forall z | IsMember(s', c, z) ensures TellsChanges(s, s', z, JoinNews(s, session, target, others, c)) {
      JoinChanges(s, s', session, target, others, c, z);
    }
    if forall z :: !IsMember(s', c, z) {
      assert !IsMember(s', c, target);
      if others != [] {
        assert !IsMember(s', c, others[0]);
      }
    }
  }

  lemma JoinChanges(s: Stores, s': Stores, session: SessionRecord, target: ChannelId, left: seq<ChannelId>, c: ClientId,
                    z: ChannelId)
    requires InOne(s) && |left| <= 1 && IsMember(s', c, z)
    requires s'.clients.LookupUsername(session.id) == Ok(session.username)
    requires forall x, y :: x != session.id ==> (IsMember(s', x, y) <==> IsMember(s, x, y))
    requires forall y :: IsMember(s', session.id, y) <==> y == target
    requires forall y :: y in left ==> IsMember(s, session.id, y) && y != target
    requires forall y, x :: y in left && IsMember(s, session.id, x) ==> y == x
    requires left == [] ==> forall y :: IsMember(s, session.id, y) ==> y == target
    ensures TellsChanges(s, s', z, JoinNews(s, session, target, left, c))
  {
    hide InOne; hide IsMember; hide TellsChanges;
    if left != [] {
      assert left[0] in left;
      if c != session.id && IsMember(s, c, left[0]) {
        OneRoom(s, c, left[0], z);
      }
    }
    if c != session.id && IsMember(s, c, target) {
      OneRoom(s, c, target, z);
    }
    var news := JoinNews(s, session, target, left, c);
    if z == target && !IsMember(s, session.id, target) {
      OneJoins(s, s', target, session.id, session.username);
      assert news == [Chat.JoinedEvent(target, session.id, session.username)];
    } else if left != [] && z == left[0] {
      OneLeaves(s, s', z, session.id, session.username);
      assert news == [Chat.LeftEvent(z, session.id, session.username)];
    } else {
      NobodyMoves(s, s', z);
      assert news == [];
    }
  }

  lemma DisconnectTells(s: Stores, session: SessionRecord, left: seq<ChannelId>, c: ClientId)
    requires |left| <= 1 && forall channel :: channel in left ==> channel in s.repo.byId
    ensures ToldAll(LeaveAllCalls(s, session, left) + [Unsubscribed(session.id)], c)
      == if left != [] && IsMember(s, c, left[0]) && c != session.id
         then [Chat.LeftEvent(left[0], session.id, session.username)] else []
  {
    hide ToldAll; hide LeaveAllCalls;
    ToldJoined(LeaveAllCalls(s, session, left), [Unsubscribed(session.id)], c);
    ToldOne(Unsubscribed(session.id), c);
    ToldOfLeaving(s, session, left, c);
  }

  lemma DisconnectInforms(s: Stores, client: ClientId, channels: seq<ChannelId>, c: ClientId)
    requires InOne(s) && client in s.clients.byId && Enumerates(channels, s.clients.byId[client].joined) && c != client
    requires forall channel :: channel in channels ==> channel in s.repo.byId
    ensures Informs(s, Dropped(s, {client}), c,
                    ToldAll(LeaveAllCalls(s, s.clients.byId[client], channels) + [Unsubscribed(client)], c))
  {
    var s', session := Dropped(s, {client}), s.clients.byId[client];
    assert session.joined - {} == session.joined;
    FewChannels(s, client, channels, {});
    NamedOnRecord(s, client);
    DisconnectTells(s, session, channels, c);
    assert forall x, z :: IsMember(s', x, z) <==> IsMember(s, x, z) && x != client;
    var news := ToldAll(LeaveAllCalls(s, session, channels) + [Unsubscribed(client)], c);
    hide Dropped; hide IsMember; hide InOne; hide TellsChanges; hide ToldAll; hide LeaveAllCalls;
    assert channels != [] ==> channels[0] in channels;
    forall z | IsMember(s', c, z) ensures TellsChanges(s, s', z, news) {
      if channels != [] && IsMember(s, c, channels[0]) {
        OneRoom(s, c, channels[0], z);
      }
      if channels != [] && z == channels[0] {
        OneLeaves(s, s', z, client, session.username);
      } else {
        NobodyMoves(s, s', z);
      }
    }
    if channels != [] && IsMember(s, c, channels[0]) {
      assert IsMember(s', c, channels[0]);
    }
  }

  // ----- A sweep -----

  // One of these sessions says goodbye to a channel that c is in.
  ghost predicate SaysFarewell(s: Stores, doomed: seq<Doomed>, c: ClientId, event: Chat.ChatEvent) {
    && event.LeftEvent? && IsMember(s, c, event.channel)
    && exists i :: 0 <= i < |doomed| && event.channel in doomed[i].channels
         && doomed[i].session.id == event.client && doomed[i].session.username == event.username
  }

  ghost predicate FewEach(doomed: seq<Doomed>) {
    forall i :: 0 <= i < |doomed| ==> |doomed[i].channels| <= 1
  }

  lemma ToldOfFarewell(s: Stores, session: SessionRecord, left: seq<ChannelId>, gone: set<ClientId>, c: ClientId)
    requires |left| <= 1 && (forall channel :: channel in left ==> channel in s.repo.byId) && c !in gone
    ensures ToldAll(LeftCalls(s, session, left, gone) + [Unsubscribed(session.id)], c)
      == if left != [] && IsMember(s, c, left[0]) then [Chat.LeftEvent(left[0], session.id, session.username)] else []
  {
    hide ToldAll;
    ToldJoined(LeftCalls(s, session, left, gone), [Unsubscribed(session.id)], c);
    ToldOne(Unsubscribed(session.id), c);
    if left != [] {
      assert left[0] in left && left[..0] == [];
      var call := MemberLeft(left[0], s.repo.byId[left[0]].members - gone, session.id, session.username);
      assert LeftCalls(s, session, left, gone) == [call];
      ToldOne(call, c);
    }
  }

  lemma FarewellsSnoc(s: Stores, front: seq<Doomed>, last: Doomed, c: ClientId, event: Chat.ChatEvent)
    ensures SaysFarewell(s, front + [last], c, event)
      <==> || SaysFarewell(s, front, c, event)
           || (event.LeftEvent? && IsMember(s, c, event.channel) && event.channel in last.channels
               && last.session.id == event.client && last.session.username == event.username)
  {
    var all := front + [last];
    hide IsMember;
    if SaysFarewell(s, front, c, event) {
      var i :| 0 <= i < |front| && event.channel in front[i].channels
        && front[i].session.id == event.client && front[i].session.username == event.username;
      assert all[i] == front[i];
    }
    assert all[|front|] == last;
  }

  lemma {:induction false} SweepTells(s: Stores, doomed: seq<Doomed>, c: ClientId)
    requires ChannelsExist(s, doomed) && NoDup(Ids(doomed)) && c !in Elems(Ids(doomed)) && FewEach(doomed)
    ensures var news := ToldAll(SweepCalls(s, doomed), c);
      NoDup(news) && forall event :: event in news <==> SaysFarewell(s, doomed, c, event)
  {
    if doomed != [] {
      var front, last := doomed[..|doomed| - 1], doomed[|doomed| - 1];
      assert doomed == front + [last] && ChannelsExist(s, front);
      IdsFront(doomed);
      SweepTells(s, front, c);
      var gone := Elems(Ids(doomed));
      var said := LeftCalls(s, last.session, last.channels, gone) + [Unsubscribed(last.session.id)];
      assert SweepCalls(s, doomed) == SweepCalls(s, front) + said;
      ToldJoined(SweepCalls(s, front), said, c);
      ToldOfFarewell(s, last.session, last.channels, gone, c);
      hide SweepCalls; hide ToldAll; hide LeftCalls; hide IsMember; hide ChannelsExist;
      NewsOfSweep(s, front, last, c, ToldAll(SweepCalls(s, front), c), ToldAll(said, c));
    }
  }

  lemma IdsFront(doomed: seq<Doomed>)
    requires doomed != [] && NoDup(Ids(doomed))
    ensures var front, last := doomed[..|doomed| - 1], doomed[|doomed| - 1];
      && NoDup(Ids(front)) && Ids(doomed) == Ids(front) + [last.session.id]
      && forall i :: 0 <= i < |front| ==> front[i].session.id != last.session.id
    ensures Elems(Ids(doomed[..|doomed| - 1])) <= Elems(Ids(doomed))
  {
    var front := doomed[..|doomed| - 1];
    assert Ids(doomed) == Ids(front) + [doomed[|doomed| - 1].session.id];
    forall i, j | 0 <= i < j < |front| ensures Ids(front)[i] != Ids(front)[j] {
      assert Ids(doomed)[i] != Ids(doomed)[j];
    }
    forall i | 0 <= i < |front| ensures front[i].session.id != doomed[|doomed| - 1].session.id {
      assert Ids(doomed)[i] != Ids(doomed)[|front|];
    }
  }

  lemma NewsOfSweep(s: Stores, front: seq<Doomed>, last: Doomed, c: ClientId, before: seq<Chat.ChatEvent>,
                    said: seq<Chat.ChatEvent>)
    requires NoDup(before) && forall event :: event in before <==> SaysFarewell(s, front, c, event)
    requires |last.channels| <= 1 && forall i :: 0 <= i < |front| ==> front[i].session.id != last.session.id
    requires said == if last.channels != [] && IsMember(s, c, last.channels[0])
                     then [Chat.LeftEvent(last.channels[0], last.session.id, last.session.username)] else []
    ensures NoDup(before + said)
    ensures forall event :: event in before + said <==> SaysFarewell(s, front + [last], c, event)
  {
    hide IsMember;
    forall event ensures event in before + said <==> SaysFarewell(s, front + [last], c, event) {
      FarewellsSnoc(s, front, last, c, event);
      assert event in before + said <==> event in before || event in said;
    }
    if said != [] {
      assert !SaysFarewell(s, front, c, said[0]);
    }
  }

  // Among the sessions collected, exactly those that were in z say goodbye to it.
  lemma FarewellIsChange(s: Stores, s': Stores, deadline: int, doomed: seq<Doomed>, c: ClientId, z: ChannelId,
                         event: Chat.ChatEvent)
    requires InOne(s) && Collected(s, deadline, doomed) && IsMember(s, c, z)
    requires forall x, y :: IsMember(s', x, y) <==> IsMember(s, x, y) && x !in s.clients.Expired(deadline)
    requires s'.clients.historical == s.clients.historical
    ensures SaysFarewell(s, doomed, c, event) <==> IsChange(s, s', z, event)
  {
    hide IsMember;
    if event.LeftEvent? {
      var d := event.client;
      if SaysFarewell(s, doomed, c, event) {
        var i :| 0 <= i < |doomed| && event.channel in doomed[i].channels
          && doomed[i].session.id == d && doomed[i].session.username == event.username;
        OneRoom(s, c, event.channel, z);
        InChannel(s, doomed[i], event.channel);
        NamedOnRecord(s, d);
        assert Ids(doomed)[i] == d && d in Elems(Ids(doomed));
      }
      if IsChange(s, s', z, event) {
        assert d in Elems(Ids(doomed));
        var i :| 0 <= i < |doomed| && Ids(doomed)[i] == d;
        NamedOnRecord(s, d);
        InChannel(s, doomed[i], z);
      }
    }
  }

  lemma InChannel(s: Stores, one: Doomed, channel: ChannelId)
    requires InOne(s) && one.session.id in s.clients.byId && one.session == s.clients.byId[one.session.id]
    requires Enumerates(one.channels, one.session.joined)
    ensures channel in one.channels <==> IsMember(s, one.session.id, channel)
  {
    assert IsMember(s, one.session.id, channel) <==> HasJoined(s, one.session.id, channel);
    assert channel in one.channels <==> channel in Elems(one.channels);
  }

  lemma SweepInforms(s: Stores, deadline: int, doomed: seq<Doomed>, c: ClientId)
    requires InOne(s) && Collected(s, deadline, doomed) && ChannelsExist(s, doomed)
    requires c !in s.clients.Expired(deadline)
    ensures Informs(s, Dropped(s, s.clients.Expired(deadline)), c, ToldAll(SweepCalls(s, doomed), c))
  {
    var gone := s.clients.Expired(deadline);
    var s', news := Dropped(s, gone), ToldAll(SweepCalls(s, doomed), c);
    forall i | 0 <= i < |doomed| ensures |doomed[i].channels| <= 1 {
      assert doomed[i].session.joined - {} == doomed[i].session.joined;
      FewChannels(s, doomed[i].session.id, doomed[i].channels, {});
    }
    assert news != [] ==> news[0] in news;
    SweepTells(s, doomed, c);
    assert forall x, z :: IsMember(s', x, z) <==> IsMember(s, x, z) && x !in gone;
    hide Dropped; hide IsMember; hide ToldAll; hide SweepCalls; hide ChannelsExist;
    forall z | IsMember(s', c, z) ensures TellsChanges(s, s', z, news) {
      forall event ensures event in news <==> IsChange(s, s', z, event) {
        FarewellIsChange(s, s', deadline, doomed, c, z, event);
      }
    }
    if forall z :: !IsMember(s', c, z) {
      assert forall z :: !IsMember(s, c, z) by {
        forall z ensures !IsMember(s, c, z) {
          assert !IsMember(s', c, z);
        }
      }
      assert forall event :: event !in news;
    }
  }

  // ----- Every request -----

  predicate Moves(request: Request) {
    || request.JoinRequest? || request.JoinByNameRequest? || request.LeaveRequest?
    || request.DisconnectRequest? || request.ExpireRequest?
  }

  // What a request says to c, from the state before it.
  ghost function NewsOf(s: Stores, request: Request, c: ClientId): seq<Chat.ChatEvent> {
    ToldAll(Execute(s, request).calls, c)
  }

  lemma {:induction false} PublishTells(order: seq<ClientId>, message: Message, c: ClientId)
    ensures ToldAll(PublishCalls(order, message), c) == []
  {
    if order != [] {
      var calls := PublishCalls(order, message);
      assert calls[..|calls| - 1] == PublishCalls(order[..|order| - 1], message);
      PublishTells(order[..|order| - 1], message, c);
    }
  }

  lemma OthersTellNothing(w: World, request: Request, c: ClientId)
    requires Inv(w) && Admissible(w, request) && !Moves(request)
    ensures NewsOf(w.stores, request, c) == []
  {
    CallsAfter(w, request);
    hide Execute; hide Inv; hide Text.CreateContent; hide PublishCalls; hide Text.CreateChannelName;
    match request {
      case CreateRequest(_, _, newChannel) =>
        if Execute(w.stores, request).calls != [] {
          ToldOne(Execute(w.stores, request).calls[0], c);
        }
      case SendRequest(client, channel, content, newMessage, now, order) =>
        if Execute(w.stores, request).calls != [] {
          PublishTells(order, Message(newMessage, client, channel, Text.CreateContent(content).value, now), c);
        }
      case _ =>
    }
  }

  lemma OthersMoveNobody(w: World, request: Request)
    requires Inv(w) && Admissible(w, request) && !Moves(request)
    ensures forall d, z :: IsMember(Execute(w.stores, request).stores, d, z) <==> IsMember(w.stores, d, z)
  {
    hide Text.CreateContent; hide PublishCalls; hide Text.CreateChannelName; hide Buffers.Save;
    hide Linked;
  }

  // A request that is refused moves nobody and says nothing.
  lemma RefusedInforms(s: Stores, c: ClientId)
    ensures Informs(s, s, c, ToldAll([], c))
  {
    SameMembersInform(s, s, c);
  }

  lemma MovesInform(w: World, request: Request, c: ClientId)
    requires Inv(w) && Admissible(w, request) && Moves(request)
    requires request.DisconnectRequest? ==> request.client != c || c !in w.stores.clients.byId
    requires request.ExpireRequest? ==> c !in w.stores.clients.Expired(request.deadline)
    ensures Informs(w.stores, Execute(w.stores, request).stores, c, NewsOf(w.stores, request, c))
  {
    var s := w.stores;
    StoresAfter(w, request);
    CallsAfter(w, request);
    RefusedInforms(s, c);
    assert InOne(s);
    hide InOne; hide Linked; hide AtMostOneChannel; hide Informs; hide InOnly; hide Dropped; hide Detached;
    hide ToldAll;
    hide JoinCalls; hide LeaveCalls; hide LeaveAllCalls; hide SweepCalls; hide Execute; hide ChatAfter; hide ListAfter;
    hide StalesAfter; hide SavedBy;
    match request {
      case JoinRequest(client, channel, others) =>
        if client in s.clients.byId && channel in s.repo.byId {
          JoinInforms(s, client, channel, others, c);
        }
      case JoinByNameRequest(client, name, others) =>
        if client in s.clients.byId && NamedChannel(s, name).Ok? {
          JoinInforms(s, client, NamedChannel(s, name).value.id, others, c);
        }
      case LeaveRequest(client, channel) =>
        if IsMember(s, client, channel) {
          LeaveInforms(s, client, channel, c);
        }
      case DisconnectRequest(client, channels) =>
        if client in s.clients.byId {
          DisconnectInforms(s, client, channels, c);
        }
      case ExpireRequest(deadline, doomed) =>
        SweepInforms(s, deadline, doomed, c);
      case _ =>
    }
  }

  // ----- Who stays subscribed -----

  // Some call ends the client's subscription.
  ghost predicate Ends(calls: seq<Call>, c: ClientId) {
    Unsubscribed(c) in calls
  }

  lemma {:induction false} WritersAfterCalls(s: Chat.ChatStreams, calls: seq<Call>, names: Chat.Names)
    ensures var s' := Chat.ApplyAll(s, calls, names);
      forall c :: (c in s'.writers <==> c in s.writers && !Ends(calls, c))
                  && (c in s'.writers ==> s'.writers[c] == s.writers[c])
  {
    if calls != [] {
      var front, last := calls[..|calls| - 1], calls[|calls| - 1];
      assert calls == front + [last];
      WritersAfterCalls(s, front, names);
      assert forall c :: Ends(calls, c) <==> Ends(front, c) || last == Unsubscribed(c);
    }
  }

  lemma {:induction false} LeavesEndNothing(s: Stores, session: SessionRecord, channels: seq<ChannelId>, c: ClientId)
    requires forall channel :: channel in channels ==> channel in s.repo.byId
    ensures !Ends(LeaveAllCalls(s, session, channels), c)
  {
    if channels != [] {
      LeavesEndNothing(s, session, channels[..|channels| - 1], c);
    }
  }

  lemma {:induction false} FarewellsEndNothing(s: Stores, session: SessionRecord, channels: seq<ChannelId>,
                                               gone: set<ClientId>, c: ClientId)
    requires forall channel :: channel in channels ==> channel in s.repo.byId
    ensures !Ends(LeftCalls(s, session, channels, gone), c)
  {
    if channels != [] {
      FarewellsEndNothing(s, session, channels[..|channels| - 1], gone, c);
    }
  }

  lemma {:induction false} SweepEnds(s: Stores, doomed: seq<Doomed>, c: ClientId)
    requires ChannelsExist(s, doomed)
    ensures Ends(SweepCalls(s, doomed), c) <==> c in Elems(Ids(doomed))
  {
    if doomed != [] {
      var front, last := doomed[..|doomed| - 1], doomed[|doomed| - 1];
      assert ChannelsExist(s, front);
      SweepEnds(s, front, c);
      FarewellsEndNothing(s, last.session, last.channels, Elems(Ids(doomed)), c);
      assert Ids(doomed) == Ids(front) + [last.session.id];
      assert SweepCalls(s, doomed) == SweepCalls(s, front)
        + LeftCalls(s, last.session, last.channels, Elems(Ids(doomed))) + [Unsubscribed(last.session.id)];
    }
  }

  // The clients whose subscription a request ends along with their session.
  ghost function SentAway(s: Stores, request: Request): set<ClientId> {
    match request
    case DisconnectRequest(client, _) => if client in s.clients.byId then {client} else {}
    case ExpireRequest(deadline, _) => s.clients.Expired(deadline)
    case _ => {}
  }

  lemma JoinEndsNothing(s: Stores, session: SessionRecord, target: ChannelId, others: seq<ChannelId>, c: ClientId)
    requires target in s.repo.byId && forall channel :: channel in others ==> channel in s.repo.byId
    ensures !Ends(JoinCalls(s, session, target, others), c)
  {
    LeavesEndNothing(s, session, others, c);
  }

  lemma DisconnectEnds(s: Stores, session: SessionRecord, channels: seq<ChannelId>, c: ClientId)
    requires forall channel :: channel in channels ==> channel in s.repo.byId
    ensures Ends(LeaveAllCalls(s, session, channels) + [Unsubscribed(session.id)], c) <==> c == session.id
  {
    LeavesEndNothing(s, session, channels, c);
  }

  lemma OthersEndNothing(w: World, request: Request, c: ClientId)
    requires Inv(w) && Admissible(w, request) && !Moves(request)
    ensures !Ends(Execute(w.stores, request).calls, c)
  {
    CallsAfter(w, request);
    hide Execute; hide Inv; hide Text.CreateContent; hide Text.CreateChannelName;
  }

  lemma LeaveEndsNothing(s: Stores, session: SessionRecord, channel: ChannelId, c: ClientId)
    requires channel in s.repo.byId
    ensures !Ends(LeaveCalls(s, session, channel), c)
  {
  }

  lemma MovesEnd(w: World, request: Request, c: ClientId)
    requires Inv(w) && Admissible(w, request) && Moves(request)
    ensures Ends(Execute(w.stores, request).calls, c) <==> c in SentAway(w.stores, request)
  {
    var s := w.stores;
    CallsAfter(w, request);
    assert !Ends([], c);
    hide Execute; hide JoinCalls; hide Registry.Expired; hide LeaveAllCalls; hide SweepCalls; hide Ends;
    hide LeaveCalls; hide ChannelsExist; hide OrdersOthers; hide AtMostOneChannel;
    match request {
      case JoinRequest(client, channel, others) =>
        if client in s.clients.byId && channel in s.repo.byId {
          JoinEndsNothing(s, s.clients.byId[client], channel, others, c);
        }
      case JoinByNameRequest(client, name, others) =>
        if client in s.clients.byId && NamedChannel(s, name).Ok? {
          JoinEndsNothing(s, s.clients.byId[client], NamedChannel(s, name).value.id, others, c);
        }
      case LeaveRequest(client, channel) =>
        if IsMember(s, client, channel) {
          LeaveEndsNothing(s, s.clients.byId[client], channel, c);
        }
      case DisconnectRequest(client, channels) =>
        if client in s.clients.byId {
          DisconnectEnds(s, s.clients.byId[client], channels, c);
        }
      case ExpireRequest(deadline, doomed) => SweepEnds(s, doomed, c);
      case _ =>
    }
  }

  lemma EndsIffSentAway(w: World, request: Request, c: ClientId)
    requires Inv(w) && Admissible(w, request)
    ensures Ends(Execute(w.stores, request).calls, c) <==> c in SentAway(w.stores, request)
  {
    if Moves(request) {
      MovesEnd(w, request, c);
    } else {
      OthersEndNothing(w, request, c);
    }
    hide Execute; hide Inv; hide Admissible; hide Ends;
  }

  // The writers of the channel events after a request, from the state before it.
  lemma WritersAfter(w: World, request: Request)
    requires Inv(w) && Admissible(w, request)
    ensures var writers, s := w.chat.writers, w.stores;
      Next(w, request).chat.writers ==
        match request
        case SubscribeRequest(client, channel, writer) =>
          if IsMember(s, client, channel) then writers[client := writer] else writers - {client}
        case CancelRequest(client) => writers - {client}
        case DisconnectRequest(client, _) => if client in s.clients.byId then writers - {client} else writers
        case ExpireRequest(deadline, _) => writers - s.clients.Expired(deadline)
        case _ => writers
  {
    hide ListAfter; hide StalesAfter; hide SavedBy; hide Inv; hide Admissible;
    var s' := Next(w, request).chat;
    if !request.SubscribeRequest? && !request.CancelRequest? {
      WritersAfterCalls(w.chat, Execute(w.stores, request).calls, w.stores.clients.historical);
      hide Execute;
      forall c ensures c in s'.writers <==> c in w.chat.writers && c !in SentAway(w.stores, request) {
        EndsIffSentAway(w, request, c);
      }
      hide Chat.ApplyAll; hide Ends;
      assert s'.writers == w.chat.writers - SentAway(w.stores, request);
    }
  }

  // ----- What one request says to a subscriber -----

  // Every request, whatever it is: what it adds to the announcements of a client that
  // stays subscribed are the changes of the channel that the client is in afterwards,
  // each once.
  lemma HearsChanges(w: World, request: Request, c: ClientId, writer: WriterId) returns (news: seq<Chat.ChatEvent>)
    requires Inv(w) && Admissible(w, request) && KeepsWriter(w, Next(w, request), c, writer)
    ensures writer in w.chat.written && writer in Next(w, request).chat.written
    ensures Notices(Next(w, request).chat.written[writer]) == Notices(w.chat.written[writer]) + news
    ensures Informs(w.stores, Next(w, request).stores, c, news)
  {
    WritersAfter(w, request);
    news := NewsOf(w.stores, request, c);
    if Moves(request) {
      MovesInform(w, request, c);
    } else {
      OthersTellNothing(w, request, c);
      OthersMoveNobody(w, request);
      SameMembersInform(w.stores, Next(w, request).stores, c);
    }
    hide Execute; hide Admissible; hide Informs; hide Linked; hide AtMostOneChannel; hide ListAfter; hide StalesAfter;
    hide SavedBy; hide Notices; hide Chat.ApplyAll;
    if request.SubscribeRequest? || request.CancelRequest? {
      assert Notices(w.chat.written[writer]) + [] == Notices(w.chat.written[writer]);
    } else {
      CallsReach(w.chat, Execute(w.stores, request).calls, w.stores.clients.historical, c);
    }
  }

  // ----- The roster -----

  // The member set that a client keeps by its stream.
  function Roster(start: set<ClientId>, notices: seq<Chat.ChatEvent>, z: ChannelId): set<ClientId> {
    if notices == [] then start
    else
      var before := Roster(start, notices[..|notices| - 1], z);
      match notices[|notices| - 1]
      case JoinedEvent(channel, d, _) => if channel == z then before + {d} else before
      case LeftEvent(channel, d, _) => if channel == z then before - {d} else before
      case MessageEvent(_, _) => before
  }

  lemma {:induction false} RosterJoined(start: set<ClientId>, a: seq<Chat.ChatEvent>, b: seq<Chat.ChatEvent>,
                                        z: ChannelId)
    ensures Roster(start, a + b, z) == Roster(Roster(start, a, z), b, z)
    decreases |b|
  {
    if b == [] {
      assert a + b == a;
    } else {
      assert (a + b)[..|a + b| - 1] == a + b[..|b| - 1];
      RosterJoined(start, a, b[..|b| - 1], z);
    }
  }

  ghost predicate Joins(events: seq<Chat.ChatEvent>, z: ChannelId, d: ClientId) {
    exists i :: 0 <= i < |events| && events[i].JoinedEvent? && events[i].channel == z && events[i].client == d
  }

  ghost predicate Leaves(events: seq<Chat.ChatEvent>, z: ChannelId, d: ClientId) {
    exists i :: 0 <= i < |events| && events[i].LeftEvent? && events[i].channel == z && events[i].client == d
  }

  lemma {:induction false} RosterOf(start: set<ClientId>, events: seq<Chat.ChatEvent>, z: ChannelId, d: ClientId)
    requires !(Joins(events, z, d) && Leaves(events, z, d))
    ensures d in Roster(start, events, z) <==> Joins(events, z, d) || (d in start && !Leaves(events, z, d))
  {
    if events != [] {
      var front, last := events[..|events| - 1], events[|events| - 1];
      assert events == front + [last];
      JoinsSnoc(front, last, z, d);
      RosterOf(start, front, z, d);
    }
  }

  lemma JoinsSnoc(front: seq<Chat.ChatEvent>, last: Chat.ChatEvent, z: ChannelId, d: ClientId)
    ensures Joins(front + [last], z, d)
      <==> Joins(front, z, d) || (last.JoinedEvent? && last.channel == z && last.client == d)
    ensures Leaves(front + [last], z, d)
      <==> Leaves(front, z, d) || (last.LeftEvent? && last.channel == z && last.client == d)
  {
    var all := front + [last];
    assert forall i :: 0 <= i < |front| ==> all[i] == front[i];
    assert all[|front|] == last;
  }

  ghost function MembersOf(s: Stores, z: ChannelId): set<ClientId> {
    if z in s.repo.byId then s.repo.byId[z].members else {}
  }

  lemma RosterStep(s: Stores, s': Stores, z: ChannelId, news: seq<Chat.ChatEvent>)
    requires TellsChanges(s, s', z, news)
    requires forall d :: d in MembersOf(s', z) ==> s'.clients.LookupUsername(d).Ok?
    requires forall d :: d in MembersOf(s, z) ==> s'.clients.LookupUsername(d).Ok?
    ensures Roster(MembersOf(s, z), news, z) == MembersOf(s', z)
  {
    forall d ensures d in Roster(MembersOf(s, z), news, z) <==> d in MembersOf(s', z) {
      ChangeOf(s, s', z, news, d);
      hide TellsChanges;
      RosterOf(MembersOf(s, z), news, z, d);
    }
  }

  lemma ChangeOf(s: Stores, s': Stores, z: ChannelId, news: seq<Chat.ChatEvent>, d: ClientId)
    requires TellsChanges(s, s', z, news)
    requires d in MembersOf(s, z) || d in MembersOf(s', z) ==> s'.clients.LookupUsername(d).Ok?
    ensures Joins(news, z, d) <==> d !in MembersOf(s, z) && d in MembersOf(s', z)
    ensures Leaves(news, z, d) <==> d in MembersOf(s, z) && d !in MembersOf(s', z)
  {
    assert IsMember(s, d, z) <==> d in MembersOf(s, z);
    assert IsMember(s', d, z) <==> d in MembersOf(s', z);
    assert forall i :: 0 <= i < |news| ==> news[i] in news;
    if s'.clients.LookupUsername(d).Ok? {
      var username := s'.clients.LookupUsername(d).value;
      var joined, left := Chat.JoinedEvent(z, d, username), Chat.LeftEvent(z, d, username);
      assert joined in news <==> IsChange(s, s', z, joined);
      assert left in news <==> IsChange(s, s', z, left);
    }
  }

  lemma MembersNamed(w: World, request: Request, z: ChannelId)
    requires Inv(w) && Admissible(w, request)
    ensures var s, s' := w.stores, Next(w, request).stores;
      && (forall d :: d in MembersOf(s', z) ==> s'.clients.LookupUsername(d).Ok?)
      && (forall d :: d in MembersOf(s, z) ==> s'.clients.LookupUsername(d).Ok?)
  {
    var s, s' := w.stores, Next(w, request).stores;
    StepKeepsInv(w, request);
    StepKeepsNames(w, request);
    hide Next; hide Admissible;
    forall d | d in MembersOf(s, z) ensures s'.clients.LookupUsername(d).Ok? {
      assert IsMember(s, d, z) && HasJoined(s, d, z);
    }
    forall d | d in MembersOf(s', z) ensures s'.clients.LookupUsername(d).Ok? {
      assert IsMember(s', d, z) && HasJoined(s', d, z);
    }
  }

  // Over any stretch of a run in which a client keeps its writer and is in the channel
  // after each step, the announcements of its stream turn the member set at the start
  // into the member set at the end.
  lemma {:induction false} RosterIsMembers(cap: nat, worlds: seq<World>, requests: seq<Request>, i: nat, j: nat,
                                           c: ClientId, writer: WriterId, z: ChannelId)
    returns (heard: seq<Chat.ChatEvent>)
    requires Run(cap, worlds, requests) && i <= j < |worlds| && Subscribed(worlds, i, j, c, writer)
    requires forall k :: i < k <= j ==> IsMember(worlds[k].stores, c, z)
    ensures writer in worlds[i].chat.written && writer in worlds[j].chat.written
    ensures Notices(worlds[j].chat.written[writer]) == Notices(worlds[i].chat.written[writer]) + heard
    ensures Roster(MembersOf(worlds[i].stores, z), heard, z) == MembersOf(worlds[j].stores, z)
    decreases j
  {
    hide Next; hide Runs.Start; hide Admissible; hide Notices; hide Inv; hide MembersOf; hide Informs;
    RunKeepsInv(cap, worlds, requests, i);
    WriterHasStream(worlds[i], c);
    if i == j {
      heard := [];
      assert Notices(worlds[i].chat.written[writer]) + [] == Notices(worlds[i].chat.written[writer]);
    } else {
      var w, request := worlds[j - 1], requests[j - 1];
      heard := RosterIsMembers(cap, worlds, requests, i, j - 1, c, writer, z);
      RunKeepsInv(cap, worlds, requests, j - 1);
      assert worlds[j - 1 + 1] == Next(w, request);
      var news := HearsChanges(w, request, c, writer);
      InformsOf(w.stores, worlds[j].stores, c, news, z);
      MembersNamed(w, request, z);
      RosterStep(w.stores, worlds[j].stores, z, news);
      RosterJoined(MembersOf(worlds[i].stores, z), heard, news, z);
      heard := heard + news;
    }
  }

  lemma InformsOf(s: Stores, s': Stores, c: ClientId, news: seq<Chat.ChatEvent>, z: ChannelId)
    requires Informs(s, s', c, news) && IsMember(s', c, z)
    ensures TellsChanges(s, s', z, news)
  {
  }
}

/**
 Clients that go away: one by one on request, or many in a sweep that walks two
 unordered containers. All orders lead to the same state.
 */
module Expiry {
  import opened Core
  import opened ChannelRepository
  import opened ClientRegistry
  import opened UseCases
  import opened Membership

  // ----- Dropping clients -----

  lemma DroppedMore(s: Stores, a: set<ClientId>, b: set<ClientId>)
    ensures Dropped(Dropped(s, a), b) == Dropped(s, a + b)
  {
    var once, twice := Dropped(s, a + b), Dropped(Dropped(s, a), b);
    forall id | id in s.repo.byId ensures twice.repo.byId[id] == once.repo.byId[id] {
      assert s.repo.byId[id].members - a - b == s.repo.byId[id].members - (a + b);
    }
    assert twice.repo.byId == once.repo.byId;
    assert twice.clients.byId == once.clients.byId;
    assert twice.clients.idOf == once.clients.idOf;
  }

  lemma DroppedNothing(s: Stores)
    ensures Dropped(s, {}) == s
  {
    forall id | id in s.repo.byId ensures Dropped(s, {}).repo.byId[id] == s.repo.byId[id] {
      assert s.repo.byId[id].members - {} == s.repo.byId[id].members;
    }
    assert Dropped(s, {}).repo.byId == s.repo.byId;
    assert Dropped(s, {}).clients.byId == s.clients.byId;
    assert Dropped(s, {}).clients.idOf == s.clients.idOf;
  }

  // A client cut off from all of its channels and then removed is dropped.
  lemma RemovedIsDropped(s: Stores, client: ClientId)
    requires Linked(s) && client in s.clients.byId
    ensures var joined := s.clients.byId[client].joined;
      && s.(repo := Without(s.repo, {client}, joined), clients := s.clients.Remove(client).0)
         == Dropped(s, {client})
      && Detached(s, client, joined).clients.Remove(client) == (s.clients.Remove(client).0, Ok(Unit))
  {
    var joined := s.clients.byId[client].joined;
    var cut := Without(s.repo, {client}, joined);
    forall id | id in s.repo.byId ensures cut.byId[id] == Dropped(s, {client}).repo.byId[id] {
      assert IsMember(s, client, id) <==> HasJoined(s, client, id);
      if id !in joined {
        assert s.repo.byId[id].members - {client} == s.repo.byId[id].members;
      }
    }
    assert cut.byId == Dropped(s, {client}).repo.byId;
    assert s.clients.Remove(client).0.idOf == Dropped(s, {client}).clients.idOf;
    assert Detached(s, client, joined).clients.Remove(client).0.byId == s.clients.byId - {client};
  }

  // ----- Disconnect -----

  lemma {:induction false} LeaveEachEffect(s: Stores, client: ClientId, channels: seq<ChannelId>)
    requires Linked(s) && client in s.clients.byId
    requires NoDup(channels) && Elems(channels) <= s.clients.byId[client].joined
    ensures forall channel :: channel in channels ==> channel in s.repo.byId
    ensures LeaveEach(s, client, channels)
      == (Detached(s, client, Elems(channels)), LeaveAllCalls(s, s.clients.byId[client], channels))
  {
    forall channel | channel in channels ensures IsMember(s, client, channel) {
      assert channel in Elems(channels) && HasJoined(s, client, channel);
    }
    if channels == [] {
      assert Elems(channels) == {};
      DetachNothing(s, client);
    } else {
      var front, last := channels[..|channels| - 1], channels[|channels| - 1];
      assert Elems(channels) == Elems(front) + {last};
      LeaveEachEffect(s, client, front);
      var before := Detached(s, client, Elems(front));
      DetachedKeepsLinks(s, client, Elems(front));
      assert last in channels && IsMember(before, client, last);
      LeaveEffect(before, client, last);
      DetachMore(s, client, Elems(front), {last});
    }
  }

  // A disconnect that is answered with success has dropped the client; it fails
  // only for a client that is not there.
  lemma DisconnectEffect(s: Stores, client: ClientId, channels: seq<ChannelId>)
    requires Linked(s)
    requires client in s.clients.byId ==> Enumerates(channels, s.clients.byId[client].joined)
    ensures client !in s.clients.byId ==> Disconnect(s, client, channels) == Refused(s, ClientNotFound)
    ensures client in s.clients.byId ==>
      && (forall channel :: channel in channels ==> channel in s.repo.byId)
      && Disconnect(s, client, channels)
         == Outcome(Dropped(s, {client}),
                    LeaveAllCalls(s, s.clients.byId[client], channels) + [Unsubscribed(client)],
                    Ok(Unit))
  {
    if client in s.clients.byId {
      LeaveEachEffect(s, client, channels);
      RemovedIsDropped(s, client);
    }
  }

  // ----- The sweep -----

  // The farewells of one session to channels from which some clients are gone.
  function LeftCalls(s: Stores, session: SessionRecord, channels: seq<ChannelId>, gone: set<ClientId>): seq<Call>
    requires forall channel :: channel in channels ==> channel in s.repo.byId
  {
    if channels == [] then []
    else
      var last := channels[|channels| - 1];
      LeftCalls(s, session, channels[..|channels| - 1], gone)
        + [MemberLeft(last, s.repo.byId[last].members - gone, session.id, session.username)]
  }

  lemma {:induction false} RemoveFromEachEffect(s: Stores, session: SessionRecord, channels: seq<ChannelId>)
    requires Linked(s) && s.clients.Find(session.id) == Ok(session)
    requires NoDup(channels) && Elems(channels) <= session.joined
    ensures forall channel :: channel in channels ==> channel in s.repo.byId
    ensures RemoveFromEach(s, session, channels)
      == (s.(repo := Without(s.repo, {session.id}, Elems(channels))), LeftCalls(s, session, channels, {session.id}))
  {
    forall channel | channel in channels ensures IsMember(s, session.id, channel) {
      assert channel in Elems(channels) && HasJoined(s, session.id, channel);
    }
    if channels == [] {
      assert Elems(channels) == {};
      WithoutNothing(s.repo, {session.id});
    } else {
      var front, last := channels[..|channels| - 1], channels[|channels| - 1];
      assert Elems(channels) == Elems(front) + {last};
      RemoveFromEachEffect(s, session, front);
      var before := s.(repo := Without(s.repo, {session.id}, Elems(front)));
      WithoutKeepsInv(s.repo, {session.id}, Elems(front));
      assert last in channels && IsMember(before, session.id, last);
      RemoveMemberEffect(before, session, last);
      WithoutMoreChannels(s.repo, {session.id}, Elems(front), {last});
    }
  }

  lemma ExpireOneEffect(s: Stores, doomed: Doomed)
    requires Linked(s) && s.clients.Find(doomed.session.id) == Ok(doomed.session)
    requires Enumerates(doomed.channels, doomed.session.joined)
    ensures forall channel :: channel in doomed.channels ==> channel in s.repo.byId
    ensures ExpireOne(s, doomed)
      == (Dropped(s, {doomed.session.id}),
          LeftCalls(s, doomed.session, doomed.channels, {doomed.session.id}) + [Unsubscribed(doomed.session.id)])
  {
    RemoveFromEachEffect(s, doomed.session, doomed.channels);
    RemovedIsDropped(s, doomed.session.id);
  }

  // A list of different live sessions, each with an order of its channels.
  ghost predicate DifferentSessions(s: Stores, doomed: seq<Doomed>) {
    && NoDup(Ids(doomed))
    && forall i :: 0 <= i < |doomed| ==>
         && s.clients.Find(doomed[i].session.id) == Ok(doomed[i].session)
         && Enumerates(doomed[i].channels, doomed[i].session.joined)
  }

  lemma DifferentFront(s: Stores, doomed: seq<Doomed>)
    requires DifferentSessions(s, doomed) && doomed != []
    ensures var front, last := doomed[..|doomed| - 1], doomed[|doomed| - 1];
      && DifferentSessions(s, front)
      && last.session.id !in Elems(Ids(front))
      && Elems(Ids(doomed)) == Elems(Ids(front)) + {last.session.id}
  {
    var front, last := doomed[..|doomed| - 1], doomed[|doomed| - 1];
    assert Ids(doomed) == Ids(front) + [last.session.id];
    forall i, j | 0 <= i < j < |front| ensures Ids(front)[i] != Ids(front)[j] {
      assert Ids(doomed)[i] != Ids(doomed)[j];
    }
    forall id | id in Elems(Ids(front)) ensures id != last.session.id {
      var i :| 0 <= i < |front| && Ids(front)[i] == id;
      assert Ids(doomed)[i] != Ids(doomed)[|front|];
    }
  }

  ghost predicate ChannelsExist(s: Stores, doomed: seq<Doomed>) {
    forall i, channel :: 0 <= i < |doomed| && channel in doomed[i].channels ==> channel in s.repo.byId
  }

  // The calls of a sweep, computed from the state before it: each farewell goes
  // to the members of that channel who have not been removed yet, the leaver
  // counting as removed.
  ghost function SweepCalls(s: Stores, doomed: seq<Doomed>): seq<Call>
    requires ChannelsExist(s, doomed)
  {
    if doomed == [] then []
    else
      var front, last := doomed[..|doomed| - 1], doomed[|doomed| - 1];
      assert ChannelsExist(s, front) && doomed[|doomed| - 1] == last;
      SweepCalls(s, front)
        + LeftCalls(s, last.session, last.channels, Elems(Ids(doomed)))
        + [Unsubscribed(last.session.id)]
  }

  lemma {:induction false} LeftCallsAfterDrop(s: Stores, session: SessionRecord, channels: seq<ChannelId>,
                                              a: set<ClientId>, b: set<ClientId>)
    requires forall channel :: channel in channels ==> channel in s.repo.byId
    ensures LeftCalls(Dropped(s, a), session, channels, b) == LeftCalls(s, session, channels, a + b)
  {
    if channels != [] {
      var last := channels[|channels| - 1];
      LeftCallsAfterDrop(s, session, channels[..|channels| - 1], a, b);
      assert last in channels;
      assert s.repo.byId[last].members - a - b == s.repo.byId[last].members - (a + b);
    }
  }

  lemma {:induction false} SweepEffect(s: Stores, doomed: seq<Doomed>)
    requires Linked(s) && DifferentSessions(s, doomed)
    ensures ChannelsExist(s, doomed)
    ensures Sweep(s, doomed) == (Dropped(s, Elems(Ids(doomed))), SweepCalls(s, doomed))
  {
    hide Dropped;
    hide LeftCalls;
    hide ExpireOne;
    hide Linked;
    if doomed == [] {
      assert Elems(Ids(doomed)) == {};
      DroppedNothing(s);
    } else {
      var front, last := doomed[..|doomed| - 1], doomed[|doomed| - 1];
      DifferentFront(s, doomed);
      SweepEffect(s, front);
      var gone := Elems(Ids(front));
      var before := Dropped(s, gone);
      DroppedKeepsLinks(s, gone);
      DroppedSpares(s, gone, last.session);
      ExpireOneEffect(before, last);
      LeftCallsAfterDrop(s, last.session, last.channels, gone, {last.session.id});
      DroppedMore(s, gone, {last.session.id});
      assert ChannelsExist(s, doomed);
      AppendTwice(SweepCalls(s, front), LeftCalls(s, last.session, last.channels, gone + {last.session.id}),
                  [Unsubscribed(last.session.id)]);
    }
  }

  lemma AppendTwice<T>(a: seq<T>, b: seq<T>, c: seq<T>)
    ensures a + (b + c) == a + b + c
  {
  }

  lemma DroppedSpares(s: Stores, gone: set<ClientId>, session: SessionRecord)
    ensures Dropped(s, gone).repo.byId.Keys == s.repo.byId.Keys
    ensures session.id !in gone ==> Dropped(s, gone).clients.Find(session.id) == s.clients.Find(session.id)
  {
  }

  // The sweep, whatever the orders of its loops: exactly the sessions whose last
  // heartbeat lies before the deadline are dropped, and nobody else changes.
  lemma SweepIsOrderIndependent(s: Stores, deadline: int, doomed: seq<Doomed>)
    requires Linked(s) && Collected(s, deadline, doomed)
    ensures Sweep(s, doomed).0 == Dropped(s, s.clients.Expired(deadline))
    ensures ChannelsExist(s, doomed) && Sweep(s, doomed).1 == SweepCalls(s, doomed)
    ensures |doomed| == |s.clients.Expired(deadline)|
  {
    SweepEffect(s, doomed);
    EnumeratesLength(Ids(doomed), s.clients.Expired(deadline));
  }

  // ----- A sweep is as good as disconnecting one by one -----

  function DisconnectEach(s: Stores, doomed: seq<Doomed>): Stores {
    if doomed == [] then s
    else
      var last := doomed[|doomed| - 1];
      Disconnect(DisconnectEach(s, doomed[..|doomed| - 1]), last.session.id, last.channels).stores
  }

  lemma {:induction false} SweepIsDisconnectEach(s: Stores, doomed: seq<Doomed>)
    requires Linked(s) && DifferentSessions(s, doomed)
    ensures Sweep(s, doomed).0 == DisconnectEach(s, doomed)
  {
    SweepEffect(s, doomed);
    if doomed != [] {
      var front, last := doomed[..|doomed| - 1], doomed[|doomed| - 1];
      DifferentFront(s, doomed);
      SweepEffect(s, front);
      SweepIsDisconnectEach(s, front);
      var gone := Elems(Ids(front));
      DroppedKeepsLinks(s, gone);
      DisconnectEffect(Dropped(s, gone), last.session.id, last.channels);
      DroppedMore(s, gone, {last.session.id});
    } else {
      assert Elems(Ids(doomed)) == {};
      DroppedNothing(s);
    }
  }

  // ----- Who hears a farewell -----

  // The k-th call, if it is a farewell, comes from some session of the list and
  // goes to the members of the channel minus all sessions removed so far.
  ghost predicate FarewellFrom(s: Stores, doomed: seq<Doomed>, call: Call, i: nat) {
    && call.MemberLeft? && i < |doomed|
    && call.client == doomed[i].session.id && call.channel in doomed[i].channels && call.channel in s.repo.byId
    && call.recipients == s.repo.byId[call.channel].members - Elems(Ids(doomed[..i + 1]))
  }

  lemma {:induction false} LeftCallsAreFarewells(s: Stores, session: SessionRecord, channels: seq<ChannelId>,
                                                 gone: set<ClientId>, k: nat)
    requires forall channel :: channel in channels ==> channel in s.repo.byId
    requires k < |LeftCalls(s, session, channels, gone)|
    ensures var call := LeftCalls(s, session, channels, gone)[k];
      && call.MemberLeft? && call.client == session.id && call.channel in channels
      && call.recipients == s.repo.byId[call.channel].members - gone
  {
    var front := channels[..|channels| - 1];
    if k < |LeftCalls(s, session, front, gone)| {
      LeftCallsAreFarewells(s, session, front, gone, k);
    } else {
      assert channels[|channels| - 1] in channels;
    }
  }

  lemma {:induction false} FarewellsReachTheRest(s: Stores, doomed: seq<Doomed>, k: nat) returns (i: nat)
    requires ChannelsExist(s, doomed) && k < |SweepCalls(s, doomed)|
    ensures var call := SweepCalls(s, doomed)[k];
      call.Unsubscribed? || FarewellFrom(s, doomed, call, i)
    ensures var call := SweepCalls(s, doomed)[k];
      call.MemberLeft? ==> forall j :: 0 <= j <= i ==> doomed[j].session.id !in call.recipients
  {
    var n := |doomed| - 1;
    var front, last := doomed[..n], doomed[n];
    assert ChannelsExist(s, front);
    var earlier := SweepCalls(s, front);
    assert doomed[..n + 1] == doomed;
    if k < |earlier| {
      i := FarewellsReachTheRest(s, front, k);
      assert earlier[k].MemberLeft? ==> front[..i + 1] == doomed[..i + 1];
    } else {
      i := n;
      var gone := Elems(Ids(doomed));
      if k - |earlier| < |LeftCalls(s, last.session, last.channels, gone)| {
        LeftCallsAreFarewells(s, last.session, last.channels, gone, k - |earlier|);
      }
    }
    if SweepCalls(s, doomed)[k].MemberLeft? {
      RemovedSoFar(doomed, i);
    }
  }

  lemma RemovedSoFar(doomed: seq<Doomed>, i: nat)
    requires i < |doomed|
    ensures forall j :: 0 <= j <= i ==> doomed[j].session.id in Elems(Ids(doomed[..i + 1]))
  {
    forall j | 0 <= j <= i ensures doomed[j].session.id in Elems(Ids(doomed[..i + 1])) {
      assert Ids(doomed[..i + 1])[j] == doomed[j].session.id;
    }
  }
}

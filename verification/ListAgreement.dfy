/**
 The web client's channel map against the server's repository, over runs of
 whole requests. An expiry announces no count, so a shown count can lag behind:
 it is too high exactly in the channels that are stale for that subscriber.
 */
module ListAgreement {
  import opened Core
  import opened ChannelRepository
  import opened ClientRegistry
  import opened UseCases
  import opened Membership
  import opened Expiry
  import opened Writers
  import opened Runs
  import opened ChannelsStore
  import List = ListPublisher
  import Text

  type Shown = map<ChannelId, List.Summary>

  // Same ids and names; every count exact, or too high if it is stale.
  ghost predicate Agrees(shown: Shown, repo: Repo, stale: set<ChannelId>) {
    && shown.Keys == repo.byId.Keys && stale <= repo.byId.Keys
    && forall id :: id in shown ==>
         && shown[id].id == id && shown[id].name == repo.byId[id].name
         && shown[id].count >= |repo.byId[id].members|
         && (shown[id].count == |repo.byId[id].members| <==> id !in stale)
  }

  // What the store of a subscriber shows, folded from its whole stream.
  function ShownTo(list: List.ListStreams, client: ClientId): Shown
    requires client in list.writers && list.writers[client] in list.written
  {
    Fold(list.written[list.writers[client]]).channels
  }

  ghost predicate AllAgree(w: World) {
    && w.list.Inv() && w.stale.Keys == w.list.writers.Keys
    && forall c :: c in w.list.writers ==> Agrees(ShownTo(w.list, c), w.stores.repo, w.stale[c])
  }

  // ----- Calls as the store receives them -----

  function ShownAfterCall(shown: Shown, call: Call): Shown {
    match call
    case ChannelCreated(channel) => shown[channel.id := List.Summarise(channel)]
    case MemberCountChanged(channel, count) =>
      if channel in shown then shown[channel := shown[channel].(count := count)] else shown
    case _ => shown
  }

  function ShownAfter(shown: Shown, calls: seq<Call>): Shown {
    if calls == [] then shown
    else ShownAfterCall(ShownAfter(shown, calls[..|calls| - 1]), calls[|calls| - 1])
  }

  lemma {:induction false} ShownAfterAppended(shown: Shown, a: seq<Call>, b: seq<Call>)
    ensures ShownAfter(shown, a + b) == ShownAfter(ShownAfter(shown, a), b)
    decreases |b|
  {
    if b == [] {
      assert a + b == a;
    } else {
      assert (a + b)[..|a + b| - 1] == a + b[..|b| - 1];
      ShownAfterAppended(shown, a, b[..|b| - 1]);
    }
  }

  lemma {:induction false} StaleAfterAppended(stale: set<ChannelId>, a: seq<Call>, b: seq<Call>)
    ensures StaleAfter(stale, a + b) == StaleAfter(StaleAfter(stale, a), b)
    decreases |b|
  {
    if b == [] {
      assert a + b == a;
    } else {
      assert (a + b)[..|a + b| - 1] == a + b[..|b| - 1];
      StaleAfterAppended(stale, a, b[..|b| - 1]);
    }
  }

  // Every subscriber's store follows the calls, through its stream.
  lemma {:induction false} StreamsFollowCalls(list: List.ListStreams, calls: seq<Call>, client: ClientId)
    requires list.Inv() && client in list.writers
    ensures var list' := List.ApplyAll(list, calls);
      && list'.Inv() && list'.writers == list.writers
      && ShownTo(list', client) == ShownAfter(ShownTo(list, client), calls)
  {
    if calls != [] {
      var front, last := calls[..|calls| - 1], calls[|calls| - 1];
      StreamsFollowCalls(list, front, client);
      OneCall(List.ApplyAll(list, front), last, client);
    }
  }

  lemma OneCall(list: List.ListStreams, call: Call, client: ClientId)
    requires list.Inv() && client in list.writers
    ensures var list' := List.Apply(list, call);
      && list'.Inv() && list'.writers == list.writers
      && ShownTo(list', client) == ShownAfterCall(ShownTo(list, client), call)
  {
    match call {
      case ChannelCreated(channel) =>
        DeliverToOne(list, list.writers.Keys, List.Created(List.Summarise(channel)), client);
        FoldSnoc(list.written[list.writers[client]], List.Created(List.Summarise(channel)));
      case MemberCountChanged(channel, count) =>
        DeliverToOne(list, list.writers.Keys, List.CountChanged(channel, count), client);
        FoldSnoc(list.written[list.writers[client]], List.CountChanged(channel, count));
      case _ =>
    }
  }

  // ----- Leaving channels -----

  lemma {:induction false} AgreesAfterLeaves(shown: Shown, s: Stores, stale: set<ChannelId>,
                                             session: SessionRecord, channels: seq<ChannelId>)
    requires Agrees(shown, s.repo, stale)
    requires NoDup(channels) && forall id :: id in channels ==> id in s.repo.byId
    ensures var calls := LeaveAllCalls(s, session, channels);
      Agrees(ShownAfter(shown, calls), Without(s.repo, {session.id}, Elems(channels)), StaleAfter(stale, calls))
  {
    if channels == [] {
      assert Elems(channels) == {};
      WithoutNothing(s.repo, {session.id});
    } else {
      var front, last := channels[..|channels| - 1], channels[|channels| - 1];
      AgreesAfterLeaves(shown, s, stale, session, front);
      assert Elems(channels) == Elems(front) + {last};
      assert last in channels;
      var calls := LeaveAllCalls(s, session, front);
      WithoutMoreChannels(s.repo, {session.id}, Elems(front), {last});
      AgreesAfterLeave(ShownAfter(shown, calls), Without(s.repo, {session.id}, Elems(front)),
                       StaleAfter(stale, calls), s, session, last);
      ShownAfterAppended(shown, calls, LeaveCalls(s, session, last));
      StaleAfterAppended(stale, calls, LeaveCalls(s, session, last));
    }
  }

  lemma AgreesAfterLeave(shown: Shown, repo: Repo, stale: set<ChannelId>, s: Stores, session: SessionRecord,
                         channel: ChannelId)
    requires Agrees(shown, repo, stale)
    requires channel in s.repo.byId && channel in repo.byId
    requires s.repo.byId[channel].members - {session.id} == repo.byId[channel].members - {session.id}
    ensures var calls := LeaveCalls(s, session, channel);
      Agrees(ShownAfter(shown, calls), Without(repo, {session.id}, {channel}), StaleAfter(stale, calls))
  {
    var calls := LeaveCalls(s, session, channel);
    TwoCalls(shown, stale, calls[0], calls[1]);
    assert calls == [calls[0], calls[1]];
  }

  lemma TwoCalls(shown: Shown, stale: set<ChannelId>, a: Call, b: Call)
    ensures ShownAfter(shown, [a, b]) == ShownAfterCall(ShownAfterCall(shown, a), b)
    ensures StaleAfter(stale, [a, b]) == StaleAfterCall(StaleAfterCall(stale, a), b)
  {
    assert [a] + [b] == [a, b];
    ShownAfterAppended(shown, [a], [b]);
    StaleAfterAppended(stale, [a], [b]);
    OneCallOnly(shown, stale, a);
    OneCallOnly(ShownAfterCall(shown, a), StaleAfterCall(stale, a), b);
  }

  lemma OneCallOnly(shown: Shown, stale: set<ChannelId>, call: Call)
    ensures ShownAfter(shown, [call]) == ShownAfterCall(shown, call)
    ensures StaleAfter(stale, [call]) == StaleAfterCall(stale, call)
  {
    assert [call][..0] == [];
  }

  // ----- Joining -----

  lemma AgreesAfterJoin(shown: Shown, s: Stores, stale: set<ChannelId>, client: ClientId, target: ChannelId,
                        others: seq<ChannelId>)
    requires Agrees(shown, s.repo, stale) && Linked(s)
    requires client in s.clients.byId && target in s.repo.byId && OrdersOthers(s, client, target, others)
    requires forall id :: id in others ==> id in s.repo.byId
    ensures var calls := JoinCalls(s, s.clients.byId[client], target, others);
      Agrees(ShownAfter(shown, calls), InOnly(s, client, target).repo, StaleAfter(stale, calls))
  {
    hide LeaveAllCalls;
    hide Linked;
    hide Agrees;
    hide InOnly;
    hide Without;
    var session := s.clients.byId[client];
    var members := s.repo.byId[target].members;
    var calls := LeaveAllCalls(s, session, others);
    var without := Without(s.repo, {client}, session.joined - {target});
    AgreesAfterLeaves(shown, s, stale, session, others);
    LinkedKeys(s, client, target);
    WithoutOthers(s, client, target);
    if client in members {
      assert calls + [] == calls;
      SameChannelsAgree(ShownAfter(shown, calls), without, InOnly(s, client, target).repo, StaleAfter(stale, calls));
    } else {
      var more := [MemberJoined(target, members + {client}, client, session.username),
                   MemberCountChanged(target, |members + {client}|)];
      ShownAfterAppended(shown, calls, more);
      StaleAfterAppended(stale, calls, more);
      TwoCalls(ShownAfter(shown, calls), StaleAfter(stale, calls), more[0], more[1]);
      AgreesAfterAdd(ShownAfter(shown, calls), without, InOnly(s, client, target).repo, StaleAfter(stale, calls),
                     s.repo.byId[target].(members := members + {client}));
    }
  }

  lemma SameChannelsAgree(shown: Shown, repo: Repo, repo': Repo, stale: set<ChannelId>)
    requires Agrees(shown, repo, stale) && repo'.byId == repo.byId
    ensures Agrees(shown, repo', stale)
  {
  }

  // A count event for one channel whose members changed.
  lemma AgreesAfterAdd(shown: Shown, repo: Repo, repo': Repo, stale: set<ChannelId>, channel: ChannelRecord)
    requires Agrees(shown, repo, stale)
    requires channel.id in repo.byId && repo.byId[channel.id].name == channel.name
    requires repo'.byId == repo.byId[channel.id := channel]
    ensures var call := MemberCountChanged(channel.id, |channel.members|);
      Agrees(ShownAfterCall(shown, call), repo', StaleAfterCall(stale, call))
  {
  }

  // Up to the target channel, being in one channel only is being without the others.
  lemma WithoutOthers(s: Stores, client: ClientId, target: ChannelId)
    requires Linked(s) && client in s.clients.byId && target in s.repo.byId
    ensures var without := Without(s.repo, {client}, s.clients.byId[client].joined - {target});
      && InOnly(s, client, target).repo.byId
         == without.byId[target := s.repo.byId[target].(members := s.repo.byId[target].members + {client})]
      && (client in s.repo.byId[target].members ==> InOnly(s, client, target).repo.byId == without.byId)
      && target in without.byId && without.byId[target].name == s.repo.byId[target].name
  {
    var without := Without(s.repo, {client}, s.clients.byId[client].joined - {target});
    forall id | id in s.repo.byId && id != target
      ensures InOnly(s, client, target).repo.byId[id] == without.byId[id]
    {
      assert IsMember(s, client, id) <==> HasJoined(s, client, id);
      assert !IsMember(s, client, id) ==> s.repo.byId[id].members - {client} == s.repo.byId[id].members;
    }
    var members := s.repo.byId[target].members;
    assert client in members ==> members + {client} == members;
    assert InOnly(s, client, target).repo.byId
      == without.byId[target := s.repo.byId[target].(members := members + {client})];
  }

  // ----- Expiry -----

  // Calls without a count event: the store does not move, and every farewell
  // leaves its channel stale.
  ghost predicate Uncounted(calls: seq<Call>) {
    forall i :: 0 <= i < |calls| ==> calls[i].MemberLeft? || calls[i].Unsubscribed?
  }

  lemma {:induction false} UncountedCalls(shown: Shown, stale: set<ChannelId>, calls: seq<Call>)
    requires Uncounted(calls)
    ensures ShownAfter(shown, calls) == shown
    ensures StaleAfter(stale, calls) == stale + set i | 0 <= i < |calls| && calls[i].MemberLeft? :: calls[i].channel
  {
    if calls != [] {
      var front := calls[..|calls| - 1];
      UncountedCalls(shown, stale, front);
      forall id ensures id in StaleAfter(stale, calls)
        <==> id in stale || exists i :: 0 <= i < |calls| && calls[i].MemberLeft? && calls[i].channel == id
      {
        if i :| 0 <= i < |front| && front[i].MemberLeft? && front[i].channel == id {
          assert calls[i] == front[i];
        }
        if i :| 0 <= i < |calls| && calls[i].MemberLeft? && calls[i].channel == id {
          assert i < |front| ==> front[i] == calls[i];
        }
      }
    }
  }

  ghost predicate Farewell(calls: seq<Call>, channel: ChannelId) {
    exists i :: 0 <= i < |calls| && calls[i].MemberLeft? && calls[i].channel == channel
  }

  lemma FarewellAppended(a: seq<Call>, b: seq<Call>, channel: ChannelId)
    ensures Farewell(a, channel) || Farewell(b, channel) ==> Farewell(a + b, channel)
  {
    if i :| 0 <= i < |a| && a[i].MemberLeft? && a[i].channel == channel {
      assert (a + b)[i] == a[i];
    }
    if i :| 0 <= i < |b| && b[i].MemberLeft? && b[i].channel == channel {
      assert (a + b)[|a| + i] == b[i];
    }
  }

  lemma {:induction false} LeftCallsSayFarewell(s: Stores, session: SessionRecord, channels: seq<ChannelId>,
                                                gone: set<ClientId>)
    requires forall id :: id in channels ==> id in s.repo.byId
    ensures Uncounted(LeftCalls(s, session, channels, gone))
    ensures forall id :: id in channels ==> Farewell(LeftCalls(s, session, channels, gone), id)
  {
    if channels != [] {
      var front, last := channels[..|channels| - 1], channels[|channels| - 1];
      LeftCallsSayFarewell(s, session, front, gone);
      var earlier := LeftCalls(s, session, front, gone);
      var call := MemberLeft(last, s.repo.byId[last].members - gone, session.id, session.username);
      assert Farewell([call], last) by { assert [call][0].MemberLeft?; }
      forall id | id in channels ensures Farewell(earlier + [call], id) {
        FarewellAppended(earlier, [call], id);
        assert id in front || id == last;
      }
    }
  }

  lemma {:induction false} SweepSaysFarewell(s: Stores, doomed: seq<Doomed>)
    requires ChannelsExist(s, doomed)
    ensures Uncounted(SweepCalls(s, doomed))
    ensures forall i, id :: 0 <= i < |doomed| && id in doomed[i].channels ==> Farewell(SweepCalls(s, doomed), id)
  {
    if doomed != [] {
      var front, last := doomed[..|doomed| - 1], doomed[|doomed| - 1];
      assert ChannelsExist(s, front);
      SweepSaysFarewell(s, front);
      var gone := Elems(Ids(doomed));
      LeftCallsSayFarewell(s, last.session, last.channels, gone);
      var earlier, left := SweepCalls(s, front), LeftCalls(s, last.session, last.channels, gone);
      var close := [Unsubscribed(last.session.id)];
      forall i, id | 0 <= i < |doomed| && id in doomed[i].channels ensures Farewell(SweepCalls(s, doomed), id) {
        FarewellAppended(earlier, left, id);
        FarewellAppended(earlier + left, close, id);
        assert i < |front| ==> front[i] == doomed[i];
      }
    }
  }

  lemma CardinalityOfSubset<T>(a: set<T>, b: set<T>)
    requires a <= b
    ensures |a| <= |b| && (|a| == |b| <==> a == b)
  {
    assert b == a + (b - a);
    assert a == b <==> b - a == {};
  }

  // The channels that an expiry at this deadline removes somebody from.
  function LosingMembers(s: Stores, deadline: int): set<ChannelId> {
    set id | id in s.repo.byId && s.repo.byId[id].members * s.clients.Expired(deadline) != {}
  }

  lemma SweepMakesStale(s: Stores, stale: set<ChannelId>, deadline: int, doomed: seq<Doomed>)
    requires Linked(s) && Collected(s, deadline, doomed) && ChannelsExist(s, doomed)
    ensures StaleAfter(stale, SweepCalls(s, doomed)) == stale + LosingMembers(s, deadline)
  {
    var calls := SweepCalls(s, doomed);
    SweepSaysFarewell(s, doomed);
    UncountedCalls(map[], stale, calls);
    forall id | Farewell(calls, id) ensures id in LosingMembers(s, deadline) {
      var k :| 0 <= k < |calls| && calls[k].MemberLeft? && calls[k].channel == id;
      var i := FarewellsReachTheRest(s, doomed, k);
      var client := doomed[i].session.id;
      assert id in Elems(doomed[i].channels) && HasJoined(s, client, id) && IsMember(s, client, id);
      assert Ids(doomed)[i] == client && client in Elems(Ids(doomed));
      assert client in s.repo.byId[id].members * s.clients.Expired(deadline);
    }
    forall id | id in LosingMembers(s, deadline) ensures Farewell(calls, id) {
      if !Farewell(calls, id) {
        NoneExpiredIn(s, deadline, doomed, id);
      }
    }
  }

  lemma AgreesAfterSweep(shown: Shown, s: Stores, stale: set<ChannelId>, deadline: int, doomed: seq<Doomed>)
    requires Agrees(shown, s.repo, stale) && Linked(s) && Collected(s, deadline, doomed) && ChannelsExist(s, doomed)
    ensures var calls := SweepCalls(s, doomed);
      Agrees(ShownAfter(shown, calls), Dropped(s, s.clients.Expired(deadline)).repo, StaleAfter(stale, calls))
  {
    hide SweepCalls; hide Linked; hide Collected; hide Agrees; hide Dropped; hide ShownAfter; hide StaleAfter;
    var calls := SweepCalls(s, doomed);
    SweepSaysFarewell(s, doomed);
    UncountedCalls(shown, stale, calls);
    SweepMakesStale(s, stale, deadline, doomed);
    AgreesAfterDrop(shown, s, stale, StaleAfter(stale, calls), s.clients.Expired(deadline));
  }

  // Without a count event a count becomes too high exactly where somebody was dropped.
  lemma AgreesAfterDrop(shown: Shown, s: Stores, stale: set<ChannelId>, stale': set<ChannelId>, gone: set<ClientId>)
    requires Agrees(shown, s.repo, stale)
    requires stale' == stale + set id | id in s.repo.byId && s.repo.byId[id].members * gone != {}
    ensures Agrees(shown, Dropped(s, gone).repo, stale')
  {
    forall id | id in shown
      ensures var members := s.repo.byId[id].members;
        |members - gone| <= |members| && (|members - gone| == |members| <==> members * gone == {})
    {
      var members := s.repo.byId[id].members;
      CardinalityOfSubset(members - gone, members);
      assert members - gone == members <==> members * gone == {};
    }
  }

  // A channel without a farewell had no expired member.
  lemma NoneExpiredIn(s: Stores, deadline: int, doomed: seq<Doomed>, channel: ChannelId)
    requires Linked(s) && Collected(s, deadline, doomed) && channel in s.repo.byId
    requires ChannelsExist(s, doomed) && !Farewell(SweepCalls(s, doomed), channel)
    ensures s.repo.byId[channel].members !! s.clients.Expired(deadline)
  {
    SweepSaysFarewell(s, doomed);
    forall c | c in s.clients.Expired(deadline) ensures !IsMember(s, c, channel) {
      assert c in Elems(Ids(doomed));
      var i :| 0 <= i < |doomed| && Ids(doomed)[i] == c;
      assert channel !in doomed[i].channels;
      assert channel !in Elems(doomed[i].channels);
      assert !HasJoined(s, c, channel);
    }
    forall c | c in s.repo.byId[channel].members ensures c !in s.clients.Expired(deadline) {
      assert IsMember(s, c, channel);
    }
  }

  // ----- Every request -----

  lemma RequestAgrees(w: World, request: Request, shown: Shown, stale: set<ChannelId>)
    requires Inv(w) && Admissible(w, request) && Agrees(shown, w.stores.repo, stale)
    ensures var calls := Execute(w.stores, request).calls;
      Agrees(ShownAfter(shown, calls), Next(w, request).stores.repo, StaleAfter(stale, calls))
  {
    hide ChatAfter;
    hide ListAfter;
    hide SavedBy;
    hide InOnly;
    hide JoinCalls;
    hide LeaveAllCalls;
    hide SweepCalls;
    hide Linked;
    hide Agrees;
    hide Dropped;
    hide Detached;
    hide LeaveCalls;
    var s := w.stores;
    StoresAfter(w, request);
    CallsAfter(w, request);
    match request {
      case JoinRequest(client, channel, others) =>
        if client in s.clients.byId && channel in s.repo.byId {
          AgreesAfterJoin(shown, s, stale, client, channel, others);
        }
      case JoinByNameRequest(client, name, others) =>
        if client in s.clients.byId && NamedChannel(s, name).Ok? {
          AgreesAfterJoin(shown, s, stale, client, NamedChannel(s, name).value.id, others);
        }
      case LeaveRequest(client, channel) =>
        if IsMember(s, client, channel) {
          LeaveAgrees(shown, s, stale, client, channel);
        }
      case DisconnectRequest(client, channels) =>
        if client in s.clients.byId {
          DisconnectAgrees(shown, s, stale, client, channels);
        }
      case ExpireRequest(deadline, doomed) =>
        AgreesAfterSweep(shown, s, stale, deadline, doomed);
      case CreateRequest(client, name, newChannel) =>
        CreateAgrees(shown, s, stale, client, name, newChannel);
      case SendRequest(_, _, _, _, _, _) =>
        SendAgrees(shown, s, stale, request);
      case _ =>
    }
  }

  lemma LeaveAgrees(shown: Shown, s: Stores, stale: set<ChannelId>, client: ClientId, channel: ChannelId)
    requires Agrees(shown, s.repo, stale) && Linked(s) && IsMember(s, client, channel) && client in s.clients.byId
    ensures var calls := LeaveCalls(s, s.clients.byId[client], channel);
      Agrees(ShownAfter(shown, calls), Detached(s, client, {channel}).repo, StaleAfter(stale, calls))
  {
    AgreesAfterLeave(shown, s.repo, stale, s, s.clients.byId[client], channel);
  }

  lemma DisconnectAgrees(shown: Shown, s: Stores, stale: set<ChannelId>, client: ClientId, channels: seq<ChannelId>)
    requires Agrees(shown, s.repo, stale) && Linked(s) && client in s.clients.byId
    requires Enumerates(channels, s.clients.byId[client].joined) && forall id :: id in channels ==> id in s.repo.byId
    ensures var calls := LeaveAllCalls(s, s.clients.byId[client], channels) + [Unsubscribed(client)];
      Agrees(ShownAfter(shown, calls), Dropped(s, {client}).repo, StaleAfter(stale, calls))
  {
    var session := s.clients.byId[client];
    var calls := LeaveAllCalls(s, session, channels);
    AgreesAfterLeaves(shown, s, stale, session, channels);
    RemovedIsDropped(s, client);
    ShownAfterAppended(shown, calls, [Unsubscribed(client)]);
    StaleAfterAppended(stale, calls, [Unsubscribed(client)]);
    UncountedCalls(ShownAfter(shown, calls), StaleAfter(stale, calls), [Unsubscribed(client)]);
  }

  lemma CreateAgrees(shown: Shown, s: Stores, stale: set<ChannelId>, client: ClientId, name: string,
                     newChannel: ChannelId)
    requires Agrees(shown, s.repo, stale) && newChannel !in s.repo.byId
    ensures var out := CreateChannel(s, client, name, newChannel);
      Agrees(ShownAfter(shown, out.calls), out.stores.repo, StaleAfter(stale, out.calls))
  {
    var out := CreateChannel(s, client, name, newChannel);
    if out.calls != [] {
      assert out.calls[..0] == [];
      assert ShownAfter(shown, out.calls) == ShownAfterCall(shown, out.calls[0]);
      assert StaleAfter(stale, out.calls) == stale;
    }
  }

  lemma {:induction false} SendAgrees(shown: Shown, s: Stores, stale: set<ChannelId>, request: Request)
    requires Agrees(shown, s.repo, stale) && request.SendRequest?
    ensures var out := Execute(s, request);
      Agrees(ShownAfter(shown, out.calls), out.stores.repo, StaleAfter(stale, out.calls))
  {
    PublishesShowNothing(shown, stale, Execute(s, request).calls);
  }

  lemma {:induction false} PublishesShowNothing(shown: Shown, stale: set<ChannelId>, calls: seq<Call>)
    requires forall i :: 0 <= i < |calls| ==> calls[i].Published?
    ensures ShownAfter(shown, calls) == shown && StaleAfter(stale, calls) == stale
  {
    if calls != [] {
      PublishesShowNothing(shown, stale, calls[..|calls| - 1]);
    }
  }

  // A new subscriber's store is exact from the first event on.
  lemma SnapshotAgrees(listed: seq<ChannelRecord>, repo: Repo)
    requires repo.Inv() && Lists(listed, repo)
    ensures Agrees(Fold([List.Snapshot(List.SummariseAll(listed))]).channels, repo, {})
  {
    var list := List.SummariseAll(listed);
    FoldSnoc([], List.Snapshot(list));
    assert [] + [List.Snapshot(list)] == [List.Snapshot(list)];
    SnapshotHoldsRepo(listed, repo);
  }

  lemma {:induction false} CallsKeepWriters(list: List.ListStreams, calls: seq<Call>)
    ensures List.ApplyAll(list, calls).writers == list.writers
  {
    if calls != [] {
      CallsKeepWriters(list, calls[..|calls| - 1]);
    }
  }

  lemma StalesFollowWriters(w: World, request: Request)
    requires w.stale.Keys == w.list.writers.Keys
    ensures Next(w, request).stale.Keys == Next(w, request).list.writers.Keys
  {
    hide Execute; hide ChatAfter; hide SavedBy;
    CallsKeepWriters(w.list, Execute(w.stores, request).calls);
  }

  lemma StepKeepsAgreement(w: World, request: Request)
    requires Inv(w) && Admissible(w, request) && AllAgree(w)
    ensures AllAgree(Next(w, request))
  {
    hide Next; hide Inv; hide Admissible; hide Agrees;
    var w' := Next(w, request);
    StalesFollowWriters(w, request);
    StepKeepsLists(w, request);
    forall c | c in w'.list.writers ensures Agrees(ShownTo(w'.list, c), w'.stores.repo, w'.stale[c]) {
      SubscriberAgrees(w, request, c);
    }
  }

  lemma StepKeepsLists(w: World, request: Request)
    requires Inv(w) && Admissible(w, request)
    ensures Next(w, request).list.Inv()
  {
    StepKeepsInv(w, request);
    hide Next; hide Linked; hide AtMostOneChannel;
  }

  lemma CallsAgree(w: World, request: Request, client: ClientId)
    requires Inv(w) && Admissible(w, request) && AllAgree(w) && client in w.list.writers
    requires !request.WatchRequest? && !request.UnwatchRequest?
    ensures var w' := Next(w, request);
      && w'.list.Inv() && client in w'.list.writers && client in w'.stale
      && Agrees(ShownTo(w'.list, client), w'.stores.repo, w'.stale[client])
  {
    hide ChatAfter; hide SavedBy; hide Agrees; hide Execute; hide Linked; hide Admissible;
    var calls := Execute(w.stores, request).calls;
    CallsKeepWriters(w.list, calls);
    StreamsFollowCalls(w.list, calls, client);
    RequestAgrees(w, request, ShownTo(w.list, client), w.stale[client]);
  }

  // Watching and ceasing to watch touch no store, and no stream but the client's own.
  lemma WatchAgrees(w: World, request: Request, client: ClientId)
    requires Inv(w) && Admissible(w, request) && AllAgree(w) && (request.WatchRequest? || request.UnwatchRequest?)
    requires client in Next(w, request).list.writers && Next(w, request).list.Inv()
    ensures var w' := Next(w, request);
      client in w'.stale && Agrees(ShownTo(w'.list, client), w'.stores.repo, w'.stale[client])
  {
    hide ChatAfter; hide SavedBy; hide Agrees; hide Lists; hide Linked; hide Fold;
    if request.WatchRequest? && request.client == client && client in w.stores.clients.byId {
      InvHasRepo(w);
      SnapshotAgrees(request.listed, w.stores.repo);
      hide List.SummariseAll;
    }
  }

  lemma SubscriberAgrees(w: World, request: Request, client: ClientId)
    requires Inv(w) && Admissible(w, request) && AllAgree(w)
    requires client in Next(w, request).list.writers
    ensures var w' := Next(w, request);
      w'.list.Inv() && client in w'.stale && Agrees(ShownTo(w'.list, client), w'.stores.repo, w'.stale[client])
  {
    StepKeepsLists(w, request);
    if request.WatchRequest? || request.UnwatchRequest? {
      hide *;
      WatchAgrees(w, request, client);
    } else {
      hide ChatAfter; hide SavedBy; hide Agrees; hide Execute; hide Inv; hide Admissible; hide AllAgree;
      CallsKeepWriters(w.list, Execute(w.stores, request).calls);
      hide Next;
      CallsAgree(w, request, client);
    }
  }

  lemma InvHasRepo(w: World)
    requires Inv(w)
    ensures w.stores.repo.Inv()
  {
  }

  // In every state of every run, whatever any subscriber's store shows has the
  // repository's ids and names, and a count that is the member count exactly where
  // it is not stale for that subscriber, and higher where it is.
  lemma {:induction false} RunKeepsAgreement(cap: nat, worlds: seq<World>, requests: seq<Request>, n: nat)
    requires Run(cap, worlds, requests) && n < |worlds|
    ensures AllAgree(worlds[n])
    decreases n
  {
    hide Next;
    hide Admissible;
    if n > 0 {
      RunKeepsAgreement(cap, worlds, requests, n - 1);
      RunKeepsInv(cap, worlds, requests, n - 1);
      assert worlds[n - 1 + 1] == Next(worlds[n - 1], requests[n - 1]);
      StepKeepsAgreement(worlds[n - 1], requests[n - 1]);
    }
  }

  // ----- What makes a count stale -----

  lemma {:induction false} LeavesAreCounted(s: Stores, stale: set<ChannelId>, session: SessionRecord,
                                            channels: seq<ChannelId>)
    requires forall id :: id in channels ==> id in s.repo.byId
    ensures StaleAfter(stale, LeaveAllCalls(s, session, channels)) == stale - Elems(channels)
  {
    if channels != [] {
      var front, last := channels[..|channels| - 1], channels[|channels| - 1];
      LeavesAreCounted(s, stale, session, front);
      assert last in channels && Elems(channels) == Elems(front) + {last};
      var calls, more := LeaveAllCalls(s, session, front), LeaveCalls(s, session, last);
      StaleAfterAppended(stale, calls, more);
      TwoCalls(map[], StaleAfter(stale, calls), more[0], more[1]);
      assert more == [more[0], more[1]];
    }
  }

  lemma JoinsAreCounted(s: Stores, stale: set<ChannelId>, session: SessionRecord, target: ChannelId,
                        others: seq<ChannelId>)
    requires target in s.repo.byId && forall id :: id in others ==> id in s.repo.byId
    ensures StaleAfter(stale, JoinCalls(s, session, target, others))
      == stale - Elems(others) - if session.id in s.repo.byId[target].members then {} else {target}
  {
    var members, calls := s.repo.byId[target].members, LeaveAllCalls(s, session, others);
    LeavesAreCounted(s, stale, session, others);
    if session.id in members {
      assert calls + [] == calls;
    } else {
      var more := [MemberJoined(target, members + {session.id}, session.id, session.username),
                   MemberCountChanged(target, |members + {session.id}|)];
      StaleAfterAppended(stale, calls, more);
      TwoCalls(map[], StaleAfter(stale, calls), more[0], more[1]);
    }
  }

  // The channels that a request announces the member count of.
  function Recounted(s: Stores, request: Request): set<ChannelId> {
    match request
    case JoinRequest(client, channel, _) =>
      if client in s.clients.byId && channel in s.repo.byId then JoinRecounts(s, client, channel) else {}
    case JoinByNameRequest(client, name, _) =>
      if client in s.clients.byId && NamedChannel(s, name).Ok?
      then JoinRecounts(s, client, NamedChannel(s, name).value.id) else {}
    case LeaveRequest(client, channel) =>
      if channel in s.repo.byId && client in s.repo.byId[channel].members then {channel} else {}
    case DisconnectRequest(client, _) => if client in s.clients.byId then s.clients.byId[client].joined else {}
    case _ => {}
  }

  function JoinRecounts(s: Stores, client: ClientId, channel: ChannelId): set<ChannelId>
    requires client in s.clients.byId
  {
    s.clients.byId[client].joined - {channel}
    + if channel in s.repo.byId && client in s.repo.byId[channel].members then {} else {channel}
  }

  lemma CallsMakeStale(w: World, request: Request, stale: set<ChannelId>)
    requires Inv(w) && Admissible(w, request)
    ensures var calls := Execute(w.stores, request).calls;
      StaleAfter(stale, calls)
      == if request.ExpireRequest? then stale + LosingMembers(w.stores, request.deadline)
         else stale - Recounted(w.stores, request)
  {
    hide Execute; hide SavedBy; hide ChatAfter; hide ListAfter; hide Linked;
    hide LeaveAllCalls; hide JoinCalls; hide SweepCalls; hide LosingMembers;
    var s := w.stores;
    CallsAfter(w, request);
    match request {
      case JoinRequest(client, channel, others) =>
        if client in s.clients.byId && channel in s.repo.byId {
          LinkedKeys(s, client, channel);
          JoinsAreCounted(s, stale, s.clients.byId[client], channel, others);
        }
      case JoinByNameRequest(client, name, others) =>
        if client in s.clients.byId && NamedChannel(s, name).Ok? {
          LinkedKeys(s, client, NamedChannel(s, name).value.id);
          JoinsAreCounted(s, stale, s.clients.byId[client], NamedChannel(s, name).value.id, others);
        }
      case LeaveRequest(client, channel) =>
        if IsMember(s, client, channel) {
          var calls := LeaveCalls(s, s.clients.byId[client], channel);
          TwoCalls(map[], stale, calls[0], calls[1]);
          assert calls == [calls[0], calls[1]];
        }
      case DisconnectRequest(client, channels) =>
        if client in s.clients.byId {
          var calls := LeaveAllCalls(s, s.clients.byId[client], channels);
          LeavesAreCounted(s, stale, s.clients.byId[client], channels);
          StaleAfterAppended(stale, calls, [Unsubscribed(client)]);
          OneCallOnly(map[], StaleAfter(stale, calls), Unsubscribed(client));
        }
      case ExpireRequest(deadline, doomed) => SweepMakesStale(s, stale, deadline, doomed);
      case CreateRequest(client, name, newChannel) => CreateMakesNothingStale(s, stale, request);
      case SendRequest(_, _, _, _, _, _) => SendMakesNothingStale(s, stale, request);
      case _ =>
    }
  }

  // For each subscriber: a sweep makes stale exactly the channels that lose a member;
  // a count event and a new snapshot make counts exact again, and nothing else does.
  lemma StaleOnlyByExpiry(w: World, request: Request, c: ClientId)
    requires Inv(w) && Admissible(w, request) && AllAgree(w)
    requires c in Next(w, request).list.writers
    ensures c in Next(w, request).stale
    ensures Next(w, request).stale[c]
      == if c !in w.stale || (request.WatchRequest? && request.client == c && c in w.stores.clients.byId) then {}
         else if request.ExpireRequest? then w.stale[c] + LosingMembers(w.stores, request.deadline)
         else w.stale[c] - Recounted(w.stores, request)
  {
    CallsKeepWriters(w.list, Execute(w.stores, request).calls);
    hide ChatAfter; hide SavedBy; hide Agrees; hide StaleAfter; hide LosingMembers; hide Linked;
    if c in w.stale {
      CallsMakeStale(w, request, w.stale[c]);
    }
  }

  // One client is connected and is in the given channels.
  ghost predicate OnlyClient(s: Stores, session: SessionRecord) {
    s.clients.byId == map[session.id := session]
  }

  ghost predicate OnlyChannel(s: Stores, room: ChannelRecord) {
    s.repo == Repo(map[room.id := room], map[room.name := room.id])
  }

  lemma FirstConnects(w: World, username: string, client: ClientId, room: ChannelRecord)
    requires Text.CreateUsername(Text.Trim(username)).Some?
    requires w.stores.clients == EMPTY_REGISTRY && OnlyChannel(w.stores, room)
    ensures var request := ConnectRequest(username, client, 0);
      && Admissible(w, request)
      && OnlyClient(Next(w, request).stores,
                    SessionRecord(client, Text.CreateUsername(Text.Trim(username)).value, {}, 0))
      && OnlyChannel(Next(w, request).stores, room)
  {
    hide ChatAfter; hide ListAfter; hide StalesAfter; hide SavedBy; hide Text.CreateUsername; hide Text.Trim;
  }

  lemma FirstWatches(w: World, session: SessionRecord, writer: WriterId, room: ChannelRecord)
    requires OnlyClient(w.stores, session) && OnlyChannel(w.stores, room) && writer !in w.list.written
    ensures var request := WatchRequest(session.id, writer, [room]);
      && Admissible(w, request)
      && Next(w, request).stores == w.stores && session.id in Next(w, request).list.writers
  {
    hide ChatAfter; hide StalesAfter; hide SavedBy;
    assert [room][0] == w.stores.repo.byId[room.id];
  }

  lemma FirstJoins(w: World, session: SessionRecord, room: ChannelRecord)
    requires Inv(w) && OnlyClient(w.stores, session) && OnlyChannel(w.stores, room) && session.joined == {}
    ensures var request := JoinRequest(session.id, room.id, []);
      && Admissible(w, request)
      && OnlyClient(Next(w, request).stores, session.(joined := {room.id}))
      && OnlyChannel(Next(w, request).stores, room.(members := room.members + {session.id}))
  {
    hide ChatAfter; hide ListAfter; hide StalesAfter; hide SavedBy; hide Execute; hide Inv; hide Linked;
    var request := JoinRequest(session.id, room.id, []);
    assert Admissible(w, request);
    StoresAfter(w, request);
    assert Next(w, request).stores == InOnly(w.stores, session.id, room.id);
    hide Next; hide Admissible;
  }

  lemma FirstIsSwept(w: World, session: SessionRecord, room: ChannelRecord)
    requires Inv(w) && OnlyClient(w.stores, session) && OnlyChannel(w.stores, room)
    requires session.joined == {room.id} && session.lastHeartbeat < 1 && room.members == {session.id}
    ensures var request := ExpireRequest(1, [Doomed(session, [room.id])]);
      && Admissible(w, request)
      && Next(w, request).stores.repo.byId == map[room.id := room.(members := {})]
      && LosingMembers(w.stores, 1) == {room.id}
  {
    hide ChatAfter; hide ListAfter; hide StalesAfter; hide SavedBy; hide Execute; hide Inv; hide Linked;
    var request := ExpireRequest(1, [Doomed(session, [room.id])]);
    assert w.stores.clients.Expired(1) == {session.id};
    assert Ids(request.doomed) == [session.id];
    assert Admissible(w, request);
    StoresAfter(w, request);
    assert room.members - {session.id} == {} && session.id in room.members * {session.id};
  }

  // One client connects, watches the list, joins the one channel there is, and is
  // swept away: the list still counts it.
  lemma SweptMemberIsCounted(cap: nat, general: ChannelId, username: string, client: ClientId, writer: WriterId)
    returns (worlds: seq<World>, requests: seq<Request>)
    requires Text.CreateUsername(Text.Trim(username)).Some?
    ensures Run(cap, worlds, requests) && |worlds| == 5 && requests[3].ExpireRequest?
    ensures var w := worlds[4];
      && w.list.Inv() && client in w.list.writers && general in ShownTo(w.list, client)
      && general in w.stores.repo.byId && w.stores.repo.byId[general].members == {}
      && ShownTo(w.list, client)[general].count > 0
  {
    hide *;
    var r0, r1, r2, session, room := UntilJoined(cap, general, username, client, writer);
    var w3 := Next(Next(Next(Start(cap, general), r0), r1), r2);
    var r3 := ExpireRequest(1, [Doomed(session, [general])]);
    FirstIsSwept(w3, session, room);
    StepsAgree(w3, r3);
    StillWatching(w3, r3, client);
    worlds, requests := FourSteps(cap, general, r0, r1, r2, r3);
    TooHighAfterSweep(w3, r3, client, general);
  }

  lemma UntilJoined(cap: nat, general: ChannelId, username: string, client: ClientId, writer: WriterId)
    returns (r0: Request, r1: Request, r2: Request, session: SessionRecord, room: ChannelRecord)
    requires Text.CreateUsername(Text.Trim(username)).Some?
    ensures var w0 := Start(cap, general);
      var w1 := Next(w0, r0);
      var w2 := Next(w1, r1);
      var w3 := Next(w2, r2);
      && Admissible(w0, r0) && Admissible(w1, r1) && Admissible(w2, r2)
      && Inv(w3) && AllAgree(w3) && client in w3.list.writers
      && OnlyClient(w3.stores, session) && OnlyChannel(w3.stores, room)
    ensures room.id == general && room.members == {client}
    ensures session.id == client && session.joined == {general} && session.lastHeartbeat == 0
  {
    hide Next; hide Start; hide Inv; hide Admissible; hide AllAgree; hide Text.CreateUsername; hide Text.Trim;
    hide OnlyClient; hide OnlyChannel;
    room := ChannelRecord(general, ChannelName("general"), {});
    session := SessionRecord(client, Text.CreateUsername(Text.Trim(username)).value, {}, 0);
    r0, r1 := ConnectRequest(username, client, 0), WatchRequest(client, writer, [room]);
    r2 := JoinRequest(client, general, []);
    var w0 := Start(cap, general);
    var w1 := Next(w0, r0);
    var w2 := Next(w1, r1);
    StartsEmpty(cap, general);
    FirstConnects(w0, username, client, room);
    StepsAgree(w0, r0);
    NoStreams(w0, r0);
    FirstWatches(w1, session, writer, room);
    StepsAgree(w1, r1);
    FirstJoins(w2, session, room);
    StepsAgree(w2, r2);
    StillWatching(w2, r2, client);
    session, room := session.(joined := {general}), room.(members := room.members + {client});
  }

  lemma FourSteps(cap: nat, general: ChannelId, r0: Request, r1: Request, r2: Request, r3: Request)
    returns (worlds: seq<World>, requests: seq<Request>)
    requires var w0 := Start(cap, general);
      var w1 := Next(w0, r0);
      var w2 := Next(w1, r1);
      var w3 := Next(w2, r2);
      Admissible(w0, r0) && Admissible(w1, r1) && Admissible(w2, r2) && Admissible(w3, r3)
    ensures Run(cap, worlds, requests) && |worlds| == 5 && requests == [r0, r1, r2, r3]
    ensures worlds[4] == Next(Next(Next(Next(Start(cap, general), r0), r1), r2), r3)
  {
    hide Next; hide Start; hide Admissible;
    var w0 := Start(cap, general);
    var w1 := Next(w0, r0);
    var w2 := Next(w1, r1);
    var w3 := Next(w2, r2);
    worlds, requests := [w0, w1, w2, w3, Next(w3, r3)], [r0, r1, r2, r3];
  }

  lemma StartsEmpty(cap: nat, general: ChannelId)
    ensures var w, room := Start(cap, general), ChannelRecord(general, ChannelName("general"), {});
      && Inv(w) && AllAgree(w) && w.stores.clients == EMPTY_REGISTRY && w.list.written == map[]
      && OnlyChannel(w.stores, room)
  {
  }

  lemma StepsAgree(w: World, request: Request)
    requires Inv(w) && AllAgree(w) && Admissible(w, request)
    ensures Inv(Next(w, request)) && AllAgree(Next(w, request))
  {
    StepKeepsInv(w, request);
    StepKeepsAgreement(w, request);
  }

  lemma NoStreams(w: World, request: Request)
    requires request.ConnectRequest?
    ensures Next(w, request).list == w.list
  {
    hide ChatAfter; hide StalesAfter; hide SavedBy; hide Text.CreateUsername; hide Text.Trim;
  }

  lemma StillWatching(w: World, request: Request, client: ClientId)
    requires client in w.list.writers && (request.JoinRequest? || request.ExpireRequest?)
    ensures client in Next(w, request).list.writers
  {
    hide ChatAfter; hide StalesAfter; hide SavedBy; hide Execute;
    CallsKeepWriters(w.list, Execute(w.stores, request).calls);
  }

  // Whoever watches the list is shown too many members of the channels that a sweep
  // has just taken somebody from.
  lemma TooHighAfterSweep(w: World, request: Request, c: ClientId, id: ChannelId)
    requires Inv(w) && Admissible(w, request) && AllAgree(w) && request.ExpireRequest?
    requires c in Next(w, request).list.writers && id in LosingMembers(w.stores, request.deadline)
    ensures var w' := Next(w, request);
      && w'.list.Inv() && id in ShownTo(w'.list, c) && id in w'.stores.repo.byId
      && ShownTo(w'.list, c)[id].count > |w'.stores.repo.byId[id].members|
  {
    StaleOnlyByExpiry(w, request, c);
    StepKeepsAgreement(w, request);
    CallsKeepWriters(w.list, Execute(w.stores, request).calls);
    hide Admissible; hide Execute; hide ChatAfter; hide SavedBy; hide LosingMembers; hide StaleAfter; hide Linked;
    assert c in w.stale;
    hide Next; hide ShownTo;
  }

  lemma CreateMakesNothingStale(s: Stores, stale: set<ChannelId>, request: Request)
    requires request.CreateRequest?
    ensures StaleAfter(stale, Execute(s, request).calls) == stale
  {
    var calls := Execute(s, request).calls;
    if calls != [] {
      OneCallOnly(map[], stale, calls[0]);
      assert calls == [calls[0]];
    }
  }

  lemma SendMakesNothingStale(s: Stores, stale: set<ChannelId>, request: Request)
    requires request.SendRequest?
    ensures StaleAfter(stale, Execute(s, request).calls) == stale
  {
    PublishesShowNothing(map[], stale, Execute(s, request).calls);
  }
}

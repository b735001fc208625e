/**
 Membership is stored twice: in the member set of a channel and in the joined
 set of a session. Here the use cases are compared with closed forms that
 change both sides at once.
 */
module Membership {
  import opened Core
  import opened ChannelRepository
  import opened ClientRegistry
  import opened MessageRepository
  import opened UseCases

  ghost predicate IsMember(s: Stores, client: ClientId, channel: ChannelId) {
    channel in s.repo.byId && client in s.repo.byId[channel].members
  }

  ghost predicate HasJoined(s: Stores, client: ClientId, channel: ChannelId) {
    client in s.clients.byId && channel in s.clients.byId[client].joined
  }

  // The two sides agree and joined channels exist.
  ghost predicate Linked(s: Stores) {
    && s.repo.Inv() && s.clients.Inv()
    && (forall client, channel :: IsMember(s, client, channel) <==> HasJoined(s, client, channel))
  }

  ghost predicate AtMostOneChannel(s: Stores) {
    forall client, a, b :: HasJoined(s, client, a) && HasJoined(s, client, b) ==> a == b
  }

  // ----- Closed forms -----

  // The repository without some clients in some channels.
  function Without(repo: Repo, gone: set<ClientId>, channels: set<ChannelId>): Repo {
    repo.(byId := map id | id in repo.byId ::
      if id in channels then repo.byId[id].(members := repo.byId[id].members - gone) else repo.byId[id])
  }

  // The client is in exactly the one channel, and in no other.
  function InOnly(s: Stores, client: ClientId, target: ChannelId): Stores
    requires client in s.clients.byId
  {
    s.(repo := s.repo.(byId := map id | id in s.repo.byId ::
         s.repo.byId[id].(members := if id == target then s.repo.byId[id].members + {client}
                                     else s.repo.byId[id].members - {client})),
       clients := s.clients.With(client, s.clients.byId[client].(joined := {target})))
  }

  // Both sides cut between one client and some channels.
  function Detached(s: Stores, client: ClientId, channels: set<ChannelId>): Stores
    requires client in s.clients.byId
  {
    s.(repo := Without(s.repo, {client}, channels),
       clients := s.clients.With(client, s.clients.byId[client].(joined := s.clients.byId[client].joined - channels)))
  }

  // The given clients deleted from the registry, the username index and all member sets.
  function Dropped(s: Stores, gone: set<ClientId>): Stores {
    s.(repo := Without(s.repo, gone, s.repo.byId.Keys),
       clients := s.clients.(
         byId := s.clients.byId - gone,
         idOf := map name | name in s.clients.idOf && s.clients.idOf[name] !in gone :: s.clients.idOf[name]))
  }

  // ----- One removal -----

  lemma RemoveMemberEffect(s: Stores, session: SessionRecord, channel: ChannelId)
    requires s.repo.Inv()
    ensures RemoveMemberAndBroadcast(s, session, channel).stores
      == s.(repo := Without(s.repo, {session.id}, {channel}))
    ensures RemoveMemberAndBroadcast(s, session, channel).calls
      == if IsMember(s, session.id, channel)
         then [MemberLeft(channel, s.repo.byId[channel].members - {session.id}, session.id, session.username)]
         else []
  {
    var out := RemoveMemberAndBroadcast(s, session, channel);
    if IsMember(s, session.id, channel) {
      assert s.repo.byId[channel].id == channel;
      assert out.stores.repo.byId == Without(s.repo, {session.id}, {channel}).byId;
      assert out.stores.repo.idOf == s.repo.idOf;
    } else if channel in s.repo.byId {
      assert s.repo.byId[channel].members - {session.id} == s.repo.byId[channel].members;
      assert Without(s.repo, {session.id}, {channel}).byId == s.repo.byId;
    } else {
      assert Without(s.repo, {session.id}, {channel}).byId == s.repo.byId;
    }
  }

  lemma WithoutKeepsInv(repo: Repo, gone: set<ClientId>, channels: set<ChannelId>)
    requires repo.Inv()
    ensures Without(repo, gone, channels).Inv()
  {
  }

  lemma WithoutNothing(repo: Repo, gone: set<ClientId>)
    ensures Without(repo, gone, {}) == repo
  {
    assert Without(repo, gone, {}).byId == repo.byId;
  }

  lemma WithoutMoreChannels(repo: Repo, gone: set<ClientId>, a: set<ChannelId>, b: set<ChannelId>)
    ensures Without(Without(repo, gone, a), gone, b) == Without(repo, gone, a + b)
  {
    var twice := Without(Without(repo, gone, a), gone, b);
    var once := Without(repo, gone, a + b);
    forall id | id in repo.byId ensures twice.byId[id] == once.byId[id] {
      assert repo.byId[id].members - gone - gone == repo.byId[id].members - gone;
    }
    assert twice.byId == once.byId;
  }

  lemma DetachMore(s: Stores, client: ClientId, a: set<ChannelId>, b: set<ChannelId>)
    requires client in s.clients.byId
    ensures Detached(Detached(s, client, a), client, b) == Detached(s, client, a + b)
  {
    WithoutMoreChannels(s.repo, {client}, a, b);
    var joined := s.clients.byId[client].joined;
    assert joined - a - b == joined - (a + b);
    var once, twice := Detached(s, client, a + b), Detached(Detached(s, client, a), client, b);
    assert once.clients.byId == twice.clients.byId;
  }

  lemma DetachNothing(s: Stores, client: ClientId)
    requires client in s.clients.byId
    ensures Detached(s, client, {}) == s
  {
    WithoutNothing(s.repo, {client});
    assert s.clients.byId[client].joined - {} == s.clients.byId[client].joined;
    assert Detached(s, client, {}).clients.byId == s.clients.byId;
  }

  // ----- Leave -----

  function LeaveCalls(s: Stores, session: SessionRecord, channel: ChannelId): seq<Call>
    requires channel in s.repo.byId
  {
    var rest := s.repo.byId[channel].members - {session.id};
    [MemberLeft(channel, rest, session.id, session.username), MemberCountChanged(channel, |rest|)]
  }

  // A member who leaves is cut off on both sides and the others are told; anyone
  // else is refused and nothing happens.
  lemma LeaveEffect(s: Stores, client: ClientId, channel: ChannelId)
    requires Linked(s)
    ensures var out := Leave(s, client, channel);
      if IsMember(s, client, channel) then
        && HasJoined(s, client, channel)
        && out.stores == Detached(s, client, {channel})
        && out.calls == LeaveCalls(s, s.clients.byId[client], channel)
        && out.result == Ok(Unit)
      else
        out == Refused(s, if client !in s.clients.byId then ClientNotFound
                          else if channel !in s.repo.byId then ChannelNotFound else NotAMember)
  {
    if IsMember(s, client, channel) {
      assert HasJoined(s, client, channel);
      var session := s.clients.byId[client];
      RemoveMemberEffect(s, session, channel);
      assert Leave(s, client, channel).stores == Detached(s, client, {channel});
    }
  }

  // ----- Join -----

  // The announcements of a whole list of channels left, all computed from the
  // state before the first of them.
  function LeaveAllCalls(s: Stores, session: SessionRecord, channels: seq<ChannelId>): seq<Call>
    requires forall channel :: channel in channels ==> channel in s.repo.byId
  {
    if channels == [] then []
    else LeaveAllCalls(s, session, channels[..|channels| - 1]) + LeaveCalls(s, session, channels[|channels| - 1])
  }

  lemma {:induction false} LeaveOtherChannelsEffect(s: Stores, session: SessionRecord, others: seq<ChannelId>)
    requires Linked(s) && s.clients.Find(session.id) == Ok(session)
    requires NoDup(others) && Elems(others) <= session.joined
    ensures forall channel :: channel in others ==> channel in s.repo.byId
    ensures LeaveOtherChannels(s, session, others)
      == Outcome(Detached(s, session.id, Elems(others)), LeaveAllCalls(s, session, others), Ok(Unit))
  {
    forall channel | channel in others ensures IsMember(s, session.id, channel) {
      assert channel in Elems(others) && HasJoined(s, session.id, channel);
    }
    if others == [] {
      assert Elems(others) == {};
      DetachNothing(s, session.id);
    } else {
      var front, last := others[..|others| - 1], others[|others| - 1];
      assert Elems(others) == Elems(front) + {last};
      LeaveOtherChannelsEffect(s, session, front);
      var before := Detached(s, session.id, Elems(front));
      assert last in others;
      WithoutKeepsInv(s.repo, {session.id}, Elems(front));
      LeaveOneEffect(before, session, last);
      DetachMore(s, session.id, Elems(front), {last});
    }
  }

  lemma LeaveOneEffect(s: Stores, session: SessionRecord, channel: ChannelId)
    requires s.repo.Inv() && session.id in s.clients.byId && IsMember(s, session.id, channel)
    ensures LeaveOne(s, session, channel)
      == Outcome(Detached(s, session.id, {channel}), LeaveCalls(s, session, channel), Ok(Unit))
  {
    RemoveMemberEffect(s, session, channel);
    var removed := RemoveMemberAndBroadcast(s, session, channel);
    assert removed.stores.repo.Find(channel).value.members == s.repo.byId[channel].members - {session.id};
  }

  // The announcements of a join, computed from the state before it.
  function JoinCalls(s: Stores, session: SessionRecord, target: ChannelId, others: seq<ChannelId>): seq<Call>
    requires target in s.repo.byId && forall channel :: channel in others ==> channel in s.repo.byId
  {
    var members := s.repo.byId[target].members;
    LeaveAllCalls(s, session, others) +
      if session.id in members then []
      else [MemberJoined(target, members + {session.id}, session.id, session.username),
            MemberCountChanged(target, |members + {session.id}|)]
  }

  // The orders in which the loop over the other channels can run.
  ghost predicate OrdersOthers(s: Stores, client: ClientId, target: ChannelId, others: seq<ChannelId>) {
    client in s.clients.byId ==> Enumerates(others, s.clients.byId[client].joined - {target})
  }

  // Whatever the order of the loop, a join of an existing channel leaves the
  // client in that channel only, on both sides; the copy of the target that was
  // read before the loop is still current when it is saved.
  lemma JoinEffect(s: Stores, client: ClientId, target: ChannelId, others: seq<ChannelId>)
    requires Linked(s) && OrdersOthers(s, client, target, others)
    requires client in s.clients.byId && target in s.repo.byId
    ensures forall channel :: channel in others ==> channel in s.repo.byId
    ensures Join(s, client, target, others)
      == Outcome(InOnly(s, client, target), JoinCalls(s, s.clients.byId[client], target, others), Ok(Unit))
  {
    hide Linked;
    hide InOnly;
    hide LeaveOtherChannels;
    hide LeaveAllCalls;
    var session, channel := s.clients.byId[client], s.repo.byId[target];
    LinkedKeys(s, client, target);
    LeaveOtherChannelsEffect(s, session, others);
    DetachedThenAdded(s, client, target);
    assert LeaveAllCalls(s, session, others) + [] == LeaveAllCalls(s, session, others);
  }

  lemma LinkedKeys(s: Stores, client: ClientId, channel: ChannelId)
    requires Linked(s)
    ensures s.repo.Inv() && s.clients.Inv()
    ensures client in s.clients.byId ==> s.clients.byId[client].id == client
    ensures channel in s.repo.byId ==> s.repo.byId[channel].id == channel
  {
  }

  lemma DetachedThenAdded(s: Stores, client: ClientId, target: ChannelId)
    requires Linked(s) && client in s.clients.byId && target in s.repo.byId
    ensures var session, channel := s.clients.byId[client], s.repo.byId[target];
      var left := Detached(s, client, session.joined - {target});
      var saved := if client in channel.members then left.repo
                   else left.repo.Save(channel.(members := channel.members + {client}));
      left.(repo := saved, clients := left.clients.Join(client, target).0) == InOnly(s, client, target)
  {
    var session, channel := s.clients.byId[client], s.repo.byId[target];
    var left := Detached(s, client, session.joined - {target});
    var saved := if client in channel.members then left.repo
                 else left.repo.Save(channel.(members := channel.members + {client}));
    assert session.joined - (session.joined - {target}) + {target} == {target};
    assert left.clients.Join(client, target).0.byId == InOnly(s, client, target).clients.byId;
    forall id | id in s.repo.byId ensures saved.byId[id] == InOnly(s, client, target).repo.byId[id] {
      assert IsMember(s, client, id) <==> HasJoined(s, client, id);
      if id == target {
        assert client in channel.members ==> channel.members + {client} == channel.members;
      } else if !IsMember(s, client, id) {
        assert s.repo.byId[id].members - {client} == s.repo.byId[id].members;
      }
    }
    assert saved.byId == InOnly(s, client, target).repo.byId;
    assert saved.idOf == s.repo.idOf;
  }

  // A client that is already in the target channel only.
  lemma JoinAgain(s: Stores, client: ClientId, target: ChannelId, others: seq<ChannelId>)
    requires Linked(s) && OrdersOthers(s, client, target, others)
    requires client in s.clients.byId && target in s.repo.byId && s.clients.byId[client].joined == {target}
    ensures Join(s, client, target, others) == Outcome(s, [], Ok(Unit))
  {
    assert s.clients.byId[client].joined - {target} == {};
    EnumeratesLength(others, {});
    assert IsMember(s, client, target) <==> HasJoined(s, client, target);
    assert s.clients.byId[client].joined + {target} == {target};
    assert s.clients.Join(client, target).0.byId == s.clients.byId;
  }

  lemma InOnlyKeepsLinks(s: Stores, client: ClientId, target: ChannelId)
    requires Linked(s) && client in s.clients.byId && target in s.repo.byId
    ensures Linked(InOnly(s, client, target))
    ensures AtMostOneChannel(s) ==> AtMostOneChannel(InOnly(s, client, target))
  {
    var s' := InOnly(s, client, target);
    forall c, channel ensures IsMember(s', c, channel) <==> HasJoined(s', c, channel) {
      assert IsMember(s, c, channel) <==> HasJoined(s, c, channel);
    }
    if AtMostOneChannel(s) {
      forall c, a, b | HasJoined(s', c, a) && HasJoined(s', c, b) ensures a == b {
        assert c != client ==> HasJoined(s, c, a) && HasJoined(s, c, b);
      }
    }
  }

  lemma DetachedKeepsLinks(s: Stores, client: ClientId, channels: set<ChannelId>)
    requires Linked(s) && client in s.clients.byId
    ensures Linked(Detached(s, client, channels))
    ensures AtMostOneChannel(s) ==> AtMostOneChannel(Detached(s, client, channels))
  {
    var s' := Detached(s, client, channels);
    WithoutKeepsInv(s.repo, {client}, channels);
    forall c, channel
      ensures HasJoined(s', c, channel) ==> HasJoined(s, c, channel)
      ensures IsMember(s', c, channel) <==> HasJoined(s', c, channel)
    {
      assert IsMember(s, c, channel) <==> HasJoined(s, c, channel);
    }
    if AtMostOneChannel(s) {
      forall c, a, b | HasJoined(s', c, a) && HasJoined(s', c, b) ensures a == b {
        assert HasJoined(s, c, a) && HasJoined(s, c, b);
      }
    }
  }

  lemma DroppedKeepsLinks(s: Stores, gone: set<ClientId>)
    requires Linked(s)
    ensures Linked(Dropped(s, gone))
    ensures AtMostOneChannel(s) ==> AtMostOneChannel(Dropped(s, gone))
  {
    var s' := Dropped(s, gone);
    WithoutKeepsInv(s.repo, gone, s.repo.byId.Keys);
    forall c, channel
      ensures HasJoined(s', c, channel) ==> HasJoined(s, c, channel)
      ensures IsMember(s', c, channel) <==> HasJoined(s', c, channel)
    {
      assert IsMember(s, c, channel) <==> HasJoined(s, c, channel);
    }
    if AtMostOneChannel(s) {
      forall c, a, b | HasJoined(s', c, a) && HasJoined(s', c, b) ensures a == b {
        assert HasJoined(s, c, a) && HasJoined(s, c, b);
      }
    }
  }
}

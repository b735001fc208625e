/**
 Two joins of one channel, followed through all channels: what they do to the channel
 they enter and to those they leave, and exactly when the two sides of membership
 agree everywhere at the end.
 */
module JoinRaces {
  import opened Core
  import opened ChannelRepository
  import opened ClientRegistry
  import opened UseCases
  import opened Sections
  import opened Tasks
  import opened Independence
  import opened Races
  import opened Departures
  import Atomicity
  import Interleaving
  import Membership

  // ----- A channel that the clients leave -----

  ghost predicate MembersLeft(members: set<ClientId>, was: set<ClientId>, one: ClientId, p: Past, two: ClientId,
                              q: Past)
  {
    if p.saved && q.saved && !p.late && !q.late then members == was - {one} || members == was - {two}
    else members == was - (if p.saved then {one} else {}) - (if q.saved then {two} else {})
  }

  ghost predicate BothDepart(now: System, z: ChannelId, was: set<ClientId>, one: Mover, p: Past, two: Mover, q: Past) {
    && Ready(now.stores, z)
    && DeparterAt(now, one, p, two.client, z, was) && DeparterAt(now, two, q, one.client, z, was)
    && (p.late ==> q.saved) && (q.late ==> p.saved)
    && MembersLeft(now.stores.repo.byId[z].members, was, one.client, p, two.client, q)
  }

  lemma OneDeparts(now: System, z: ChannelId, was: set<ClientId>, one: Mover, p: Past, two: Mover, q: Past)
    requires BothDepart(now, z, was, one, p, two, q) && one.t != two.t && one.client != two.client
    ensures var next, p' := Move(now, one.t), PastAfter(p, now.tasks[one.t], z, q.saved);
      && BothDepart(next, z, was, one, p', two, q) && BothDepart(next, z, was, two, q, one, p')
      && Keeps(now.stores, Alone(next.stores, next.tasks[one.t]), one.client, z)
  {
    DeparterMoves(now, one, p, q.saved, two.client, z, was);
    hide DeparterAt; hide StepAlone; hide Reads; hide Saves;
    DeparterStays(now, Move(now, one.t), two, q, one.client, z, was, one.t);
  }

  lemma DepartWays(now: System, z: ChannelId, was: set<ClientId>, one: Mover, p: Past, two: Mover, q: Past)
    requires BothDepart(now, z, was, one, p, two, q)
    ensures BothDepart(now, z, was, two, q, one, p)
  {
    hide DeparterAt;
  }

  // Nobody else's session changes at z.
  ghost predicate OthersListed(s: Stores, now: Stores, z: ChannelId, one: ClientId, two: ClientId) {
    forall c :: c != one && c != two ==> (Membership.HasJoined(now, c, z) <==> Membership.HasJoined(s, c, z))
  }

  lemma StartsApart(s: Stores, one: Mover, two: Mover, channel: ChannelId, walk: seq<ChannelId>, other: seq<ChannelId>,
                    z: ChannelId)
    requires MayJoin(s, one, two, channel) && z != channel && z in s.repo.byId && LinkedAt(s, z)
    ensures var none := Past(false, false);
      BothDepart(TwoJoins(s, one, two, channel, walk, other), z, s.repo.byId[z].members, one, none, two, none)
  {
    assert forall c :: Membership.IsMember(s, c, z) <==> c in s.repo.byId[z].members;
  }

  lemma {:induction false} DepartsSoFar(s: Stores, one: Mover, two: Mover, channel: ChannelId, walk: seq<ChannelId>,
                                        other: seq<ChannelId>, z: ChannelId, schedule: seq<Tid>)
    requires MayJoin(s, one, two, channel) && z != channel && z in s.repo.byId && LinkedAt(s, z)
    ensures var sys := TwoJoins(s, one, two, channel, walk, other);
      var now := After(sys, schedule);
      && BothDepart(now, z, s.repo.byId[z].members, one, PastOf(sys, schedule, one.t, two.t, z),
                    two, PastOf(sys, schedule, two.t, one.t, z))
      && OthersListed(s, now.stores, z, one.client, two.client)
      && now.tasks.Keys == {one.t, two.t}
  {
    var sys := TwoJoins(s, one, two, channel, walk, other);
    if schedule == [] {
      StartsApart(s, one, two, channel, walk, other, z);
    } else {
      hide BothDepart; hide StepAlone; hide Reads; hide Saves; hide TwoJoins;
      var before, v := schedule[..|schedule| - 1], schedule[|schedule| - 1];
      var now, was := After(sys, before), s.repo.byId[z].members;
      DepartsSoFar(s, one, two, channel, walk, other, z, before);
      var p, q := PastOf(sys, before, one.t, two.t, z), PastOf(sys, before, two.t, one.t, z);
      PastGrows(sys, schedule, one.t, two.t, z);
      PastGrows(sys, schedule, two.t, one.t, z);
      if v == one.t {
        OneDeparts(now, z, was, one, p, two, q);
      } else if v == two.t {
        DepartWays(now, z, was, one, p, two, q);
        OneDeparts(now, z, was, two, q, one, p);
      }
    }
  }

  // One task took its copy of the channel after the other had written it.
  ghost predicate InTurn(sys: System, schedule: seq<Tid>, one: Mover, two: Mover, channel: ChannelId) {
    ReadAfterSave(sys, schedule, one.t, two.t, channel) || ReadAfterSave(sys, schedule, two.t, one.t, channel)
  }

  // A channel that the clients leave: afterwards neither session lists it, and the two
  // sides agree unless both were members and took themselves out of the same copy.
  lemma LeftInStepIff(s: Stores, one: Mover, two: Mover, channel: ChannelId, walk: seq<ChannelId>,
                      other: seq<ChannelId>, z: ChannelId, schedule: seq<Tid>)
    requires MayJoin(s, one, two, channel) && z != channel && z in s.repo.byId && LinkedAt(s, z)
    requires Complete(After(TwoJoins(s, one, two, channel, walk, other), schedule))
    ensures var sys := TwoJoins(s, one, two, channel, walk, other);
      var end, was := After(sys, schedule).stores, s.repo.byId[z].members;
      && z in end.repo.byId && OthersListed(s, end, z, one.client, two.client)
      && !Membership.HasJoined(end, one.client, z) && !Membership.HasJoined(end, two.client, z)
      && (LinkedAt(end, z) <==> (one.client in was && two.client in was ==> InTurn(sys, schedule, one, two, z)))
  {
    var sys := TwoJoins(s, one, two, channel, walk, other);
    DepartsSoFar(s, one, two, channel, walk, other, z, schedule);
    var end, was := After(sys, schedule), s.repo.byId[z].members;
    hide After; hide Saved; hide ReadAfterSave; hide TwoJoins;
    assert end.tasks[one.t].Done? && end.tasks[two.t].Done?;
    var members := end.stores.repo.byId[z].members;
    assert forall c :: Membership.IsMember(s, c, z) <==> c in was;
    assert forall c :: Membership.IsMember(end.stores, c, z) <==> c in members;
    assert forall c :: Membership.HasJoined(end.stores, c, z) <==> c in was - {one.client, two.client};
    assert members == was - {one.client, two.client}
      <==> forall c :: c in members <==> c in was - {one.client, two.client};
  }

  // ----- Indexes, and channels that do not exist -----

  lemma {:induction false} SomeClock(clients: Registry) returns (clock: int)
    ensures Interleaving.HeartbeatsBy(clients, clock)
    decreases |clients.byId|
  {
    if clients.byId == map[] {
      clock := 0;
    } else {
      var id :| id in clients.byId;
      var rest := clients.(byId := clients.byId - {id});
      clock := SomeClock(rest);
      clock := if clock < clients.byId[id].lastHeartbeat then clients.byId[id].lastHeartbeat else clock;
      assert forall c :: c in clients.byId && c != id ==> c in rest.byId && rest.byId[c] == clients.byId[c];
    }
  }

  ghost function AsState(sys: System, clock: int): Interleaving.State {
    Interleaving.State(sys.stores, sys.tasks, clock)
  }

  // A joiner's section registers, touches and creates nothing, writes channels that
  // exist, and enters no other channel into a session.
  ghost predicate JoinerOp(op: Op, channel: ChannelId) {
    && !op.Register? && !op.Touch? && !op.MakeChannel? && !op.RemoveSession?
    && (op.JoinAtomic? ==> op.channel == channel)
  }

  lemma JoinerRuns(now: System, me: Mover, past: Past, other: ClientId, channel: ChannelId, was: set<ClientId>)
    requires JoinerAt(now, me, past, other, channel, was) && now.tasks[me.t].Running?
    ensures JoinerOp(now.tasks[me.t].op, channel)
  {
  }

  // Both indexes are exact, the channels are the same, and no session lists a channel
  // other than this one that it did not list before.
  ghost predicate Sound(s: Stores, now: System, channel: ChannelId, clock: int) {
    && Interleaving.Inv(AsState(now, clock)) && now.stores.repo.byId.Keys == s.repo.byId.Keys
    && forall c, z :: z != channel && Membership.HasJoined(now.stores, c, z) ==> Membership.HasJoined(s, c, z)
  }

  lemma SectionIsSound(s: Stores, now: System, t: Tid, channel: ChannelId, clock: int)
    requires Sound(s, now, channel, clock) && t in now.tasks
    requires now.tasks[t].Running? ==> JoinerOp(now.tasks[t].op, channel)
    ensures Sound(s, Move(now, t), channel, clock)
  {
    var task := now.tasks[t];
    if task.Running? {
      var a := Interleaving.Turn(t);
      assert Interleaving.Apply(AsState(now, clock), a) == AsState(Move(now, t), clock);
      Interleaving.StepKeepsInv(AsState(now, clock), a);
      Interleaving.TaskNamedParts(task, now.stores.repo);
      hide Resume; hide ReplyTo; hide Interleaving.Inv; hide Repo.KeptBy;
    } else {
      assert now.tasks[t := task] == now.tasks;
    }
  }

  lemma SoundAtFirst(s: Stores, one: Mover, two: Mover, channel: ChannelId, walk: seq<ChannelId>, other: seq<ChannelId>,
                     clock: int)
    requires s.repo.Inv() && s.clients.Inv() && Interleaving.HeartbeatsBy(s.clients, clock)
    ensures Sound(s, TwoJoins(s, one, two, channel, walk, other), channel, clock)
  {
    Interleaving.StartNamed(JoinChannel(one.client, channel, walk), s.repo);
    Interleaving.StartNamed(JoinChannel(two.client, channel, other), s.repo);
    hide Start; hide Interleaving.TaskNamed;
  }

  lemma {:induction false} SoundSoFar(s: Stores, one: Mover, two: Mover, channel: ChannelId, walk: seq<ChannelId>,
                                      other: seq<ChannelId>, clock: int, schedule: seq<Tid>)
    requires MayJoin(s, one, two, channel) && s.repo.Inv() && s.clients.Inv()
    requires Interleaving.HeartbeatsBy(s.clients, clock)
    ensures Sound(s, After(TwoJoins(s, one, two, channel, walk, other), schedule), channel, clock)
  {
    hide Sound; hide TwoJoins; hide Move; hide JoinerOp;
    var sys := TwoJoins(s, one, two, channel, walk, other);
    if schedule == [] {
      SoundAtFirst(s, one, two, channel, walk, other, clock);
    } else {
      var before, v := schedule[..|schedule| - 1], schedule[|schedule| - 1];
      var now, was := After(sys, before), s.repo.byId[channel].members;
      SoundSoFar(s, one, two, channel, walk, other, clock, before);
      JoinsSoFar(s, one, two, channel, walk, other, before);
      var p, q := PastOf(sys, before, one.t, two.t, channel), PastOf(sys, before, two.t, one.t, channel);
      JoinersRun(now, channel, was, one, p, two, q);
      if v in now.tasks {
        SectionIsSound(s, now, v, channel, clock);
      } else {
        NotThere(now, v);
      }
    }
  }

  lemma JoinersRun(now: System, channel: ChannelId, was: set<ClientId>, one: Mover, p: Past, two: Mover, q: Past)
    requires Both(now, channel, was, one, p, two, q)
    ensures one.t in now.tasks && two.t in now.tasks
    ensures now.tasks[one.t].Running? ==> JoinerOp(now.tasks[one.t].op, channel)
    ensures now.tasks[two.t].Running? ==> JoinerOp(now.tasks[two.t].op, channel)
  {
    if now.tasks[one.t].Running? {
      JoinerRuns(now, one, p, two.client, channel, was);
    }
    if now.tasks[two.t].Running? {
      JoinerRuns(now, two, q, one.client, channel, was);
    }
    hide JoinerAt; hide JoinerOp;
  }

  lemma NotThere(now: System, v: Tid)
    requires v !in now.tasks
    ensures Move(now, v) == now
  {
  }

  // ----- All channels -----

  ghost predicate BothIn(s: Stores, one: Mover, two: Mover, z: ChannelId) {
    Membership.IsMember(s, one.client, z) && Membership.IsMember(s, two.client, z)
  }

  // The two sides of membership agree everywhere at the end if and only if in the
  // channel entered one of the clients was a member before or the tasks copied it in
  // turn, and the tasks copied in turn every other channel that both clients were in.
  lemma AllLinksSurviveIff(s: Stores, one: Mover, two: Mover, channel: ChannelId, walk: seq<ChannelId>,
                           other: seq<ChannelId>, schedule: seq<Tid>)
    requires Membership.Linked(s) && MayJoin(s, one, two, channel)
    requires Complete(After(TwoJoins(s, one, two, channel, walk, other), schedule))
    ensures var sys, end := TwoJoins(s, one, two, channel, walk, other),
                            After(TwoJoins(s, one, two, channel, walk, other), schedule).stores;
      && (Membership.Linked(end)
          <==> && (|| one.client in s.repo.byId[channel].members || two.client in s.repo.byId[channel].members
                   || InTurn(sys, schedule, one, two, channel))
               && forall z :: z != channel && BothIn(s, one, two, z) ==> InTurn(sys, schedule, one, two, z))
      && (Membership.AtMostOneChannel(s) ==> Membership.AtMostOneChannel(end))
  {
    var sys := TwoJoins(s, one, two, channel, walk, other);
    var end := After(sys, schedule).stores;
    var clock := SomeClock(s.clients);
    SoundSoFar(s, one, two, channel, walk, other, clock, schedule);
    LinkSurvivesIff(s, one, two, channel, walk, other, schedule);
    BothAreMembersIff(s, one, two, channel, walk, other, schedule);
    hide After; hide Complete; hide Saved; hide ReadAfterSave; hide TwoJoins; hide InTurn;
    forall z | z != channel && z in s.repo.byId
      ensures OthersListed(s, end, z, one.client, two.client)
      ensures !Membership.HasJoined(end, one.client, z) && !Membership.HasJoined(end, two.client, z)
      ensures LinkedAt(end, z)
        <==> (BothIn(s, one, two, z) ==> InTurn(sys, schedule, one, two, z))
    {
      LeftInStepIff(s, one, two, channel, walk, other, z, schedule);
    }
    hide Interleaving.TasksNamed; hide Interleaving.HeartbeatsBy;
    LinkedEverywhere(s, end, sys, schedule, one, two, channel);
    if Membership.AtMostOneChannel(s) {
      OneChannelEach(s, end, one.client, two.client, channel);
    }
  }

  lemma LinkedIsEach(s: Stores)
    requires s.repo.Inv() && s.clients.Inv()
    ensures Membership.Linked(s) <==> forall z :: LinkedAt(s, z)
  {
    hide Repo.Inv; hide Registry.Inv; hide Membership.IsMember; hide Membership.HasJoined;
    if forall z :: LinkedAt(s, z) {
      forall c, z ensures Membership.IsMember(s, c, z) <==> Membership.HasJoined(s, c, z) {
        assert LinkedAt(s, z);
      }
    }
  }

  lemma LinkedEverywhere(s: Stores, end: Stores, sys: System, schedule: seq<Tid>, one: Mover, two: Mover,
                         channel: ChannelId)
    requires channel in s.repo.byId && end.repo.Inv() && end.clients.Inv() && end.repo.byId.Keys == s.repo.byId.Keys
    requires Membership.Linked(s)
    requires forall c, z :: z != channel && Membership.HasJoined(end, c, z) ==> Membership.HasJoined(s, c, z)
    requires forall z :: z != channel && z in s.repo.byId ==>
      (LinkedAt(end, z) <==> (BothIn(s, one, two, z) ==> InTurn(sys, schedule, one, two, z)))
    ensures Membership.Linked(end)
      <==> LinkedAt(end, channel)
           && forall z :: z != channel && BothIn(s, one, two, z) ==> InTurn(sys, schedule, one, two, z)
  {
    hide InTurn;
    forall z | z !in s.repo.byId ensures LinkedAt(end, z) {
      forall c ensures !Membership.HasJoined(end, c, z) {
        assert Membership.HasJoined(s, c, z) <==> Membership.IsMember(s, c, z);
      }
    }
    LinkedIsEach(end);
    hide LinkedAt; hide Membership.Linked;
  }

  lemma OneChannelEach(s: Stores, end: Stores, one: ClientId, two: ClientId, channel: ChannelId)
    requires Membership.AtMostOneChannel(s)
    requires forall c, z :: z != channel && Membership.HasJoined(end, c, z) ==> Membership.HasJoined(s, c, z)
    requires forall c :: (Membership.HasJoined(end, c, channel)
                          <==> Membership.HasJoined(s, c, channel) || c == one || c == two)
    requires forall c, z :: z != channel && (c == one || c == two) ==> !Membership.HasJoined(end, c, z)
    ensures Membership.AtMostOneChannel(end)
  {
  }

  // ----- A schedule on which it fails -----

  // The client is in z only.
  ghost predicate SitsIn(s: Stores, client: ClientId, z: ChannelId) {
    && client in s.clients.byId && s.clients.byId[client].id == client && s.clients.byId[client].joined == {z}
    && z in s.repo.byId && s.repo.byId[z].id == z && client in s.repo.byId[z].members
  }

  lemma OneOnly(order: seq<ChannelId>, z: ChannelId)
    requires Enumerates(order, {z})
    ensures order == [z]
  {
    EnumeratesLength(order, {z});
    assert order[0] in Elems(order);
  }

  ghost function Without(record: ChannelRecord, client: ClientId): ChannelRecord {
    record.(members := record.members - {client})
  }

  ghost function Holding(s: Stores, client: ClientId, z: ChannelId, channel: ChannelId): Task
    requires client in s.clients.byId && z in s.repo.byId && channel in s.repo.byId
  {
    Running(Op.SaveChannel(Without(s.repo.byId[z], client)),
            MemberRemoved(s.clients.byId[client], z, Joining(s.repo.byId[channel], [])))
  }

  lemma SectionBySection(a: Alone, n: nat)
    ensures RunAlone(a, 0) == a && RunAlone(a, n + 1) == StepAlone(RunAlone(a, n))
  {
  }

  // The first three sections read the session, the target and a copy of z.
  lemma CopiesOut(s: Stores, client: ClientId, z: ChannelId, channel: ChannelId, walk: seq<ChannelId>)
    requires SitsIn(s, client, z) && z != channel && channel in s.repo.byId && s.repo.byId[channel].id == channel
    ensures RunAlone(Alone(s, Start(JoinChannel(client, channel, walk))), 3)
      == Alone(s, Holding(s, client, z, channel))
  {
    var session, target := s.clients.byId[client], s.repo.byId[channel];
    var start := Alone(s, Start(JoinChannel(client, channel, walk)));
    SectionBySection(start, 0);
    SectionBySection(start, 1);
    SectionBySection(start, 2);
    hide RunAlone;
    LoadsTarget(s, session, z, target, walk);
    hide InOrder; hide LeaveOthersOrEnter;
  }

  lemma LoadsTarget(s: Stores, session: SessionRecord, z: ChannelId, target: ChannelRecord, walk: seq<ChannelId>)
    requires session.joined == {z} && z != target.id && s.repo.Find(target.id) == Ok(target)
    ensures StepAlone(Alone(s, Running(FindChannel(target.id), TargetFound(session, walk))))
      == Alone(s, StartRemove(session, z, Joining(target, [])))
  {
    assert session.joined - {target.id} == {z};
    OneOnly(InOrder(walk, session.joined - {target.id}), z);
    assert [z][1..] == [];
  }

  // The other five write z and the target and move the session.
  lemma WritesBoth(s: Stores, session: SessionRecord, left: ChannelRecord, target: ChannelRecord)
    requires session.id in s.clients.byId && session.id !in target.members
    ensures var joined := target.(members := target.members + {session.id});
      RunAlone(Alone(s, Running(Op.SaveChannel(left), MemberRemoved(session, left.id, Joining(target, [])))), 5)
      == Alone(Stores(s.repo.Save(left).Save(joined),
                      s.clients.Leave(session.id, left.id).0.Join(session.id, target.id).0, s.messages),
               Succeed(Nothing))
  {
    var start := Alone(s, Running(Op.SaveChannel(left), MemberRemoved(session, left.id, Joining(target, []))));
    var clients := s.clients.Leave(session.id, left.id).0;
    var joined := target.(members := target.members + {session.id});
    assert session.id in clients.byId && target.id == joined.id;
    SectionBySection(start, 0);
    SectionBySection(start, 1);
    SectionBySection(start, 2);
    SectionBySection(start, 3);
    SectionBySection(start, 4);
    hide RunAlone; hide StepAlone;
    WritesOut(s, session, left, target);
    WritesIn(Stores(s.repo.Save(left), clients, s.messages), session, left.id, target);
    hide Repo.Save; hide Registry.Leave; hide Registry.Join;
  }

  lemma WritesOut(s: Stores, session: SessionRecord, left: ChannelRecord, target: ChannelRecord)
    ensures var saved := s.(repo := s.repo.Save(left));
      && StepAlone(Alone(s, Running(Op.SaveChannel(left), MemberRemoved(session, left.id, Joining(target, [])))))
         == Alone(saved, Running(LeaveAtomic(session.id, left.id), OtherLeft(session, left.id, target, [])))
      && StepAlone(Alone(saved, Running(LeaveAtomic(session.id, left.id), OtherLeft(session, left.id, target, []))))
         == Alone(saved.(clients := s.clients.Leave(session.id, left.id).0),
                  Running(FindChannel(left.id), OtherCounted(session, target, [])))
  {
    hide Repo.Save; hide Registry.Leave;
  }

  lemma WritesIn(s: Stores, session: SessionRecord, left: ChannelId, target: ChannelRecord)
    requires session.id in s.clients.byId && session.id !in target.members
    ensures var joined := target.(members := target.members + {session.id});
      var saved := s.(repo := s.repo.Save(joined));
      && StepAlone(Alone(s, Running(FindChannel(left), OtherCounted(session, target, []))))
         == Alone(s, Running(Op.SaveChannel(joined), TargetSaved(session, joined)))
      && StepAlone(Alone(s, Running(Op.SaveChannel(joined), TargetSaved(session, joined))))
         == Alone(saved, Running(JoinAtomic(session.id, target.id), Entered))
      && StepAlone(Alone(saved, Running(JoinAtomic(session.id, target.id), Entered)))
         == Alone(saved.(clients := s.clients.Join(session.id, target.id).0), Succeed(Nothing))
  {
    hide Repo.Save;
  }

  lemma BothCopy(s: Stores, one: Mover, two: Mover, z: ChannelId, channel: ChannelId, walk: seq<ChannelId>,
                 other: seq<ChannelId>)
    requires one.t != two.t && z != channel
    requires SitsIn(s, one.client, z) && SitsIn(s, two.client, z) && EmptyRoom(s, channel)
    ensures After(After(TwoJoins(s, one, two, channel, walk, other), Atomicity.Repeat(one.t, 3)),
                  Atomicity.Repeat(two.t, 3))
      == System(s, map[one.t := Holding(s, one.client, z, channel), two.t := Holding(s, two.client, z, channel)])
  {
    hide Start; hide RunAlone; hide After; hide Atomicity.Repeat;
    var sys := TwoJoins(s, one, two, channel, walk, other);
    CopiesOut(s, one.client, z, channel, walk);
    Atomicity.RepeatRunsAlone(sys, one.t, 3);
    CopiesOut(s, two.client, z, channel, other);
    Atomicity.RepeatRunsAlone(After(sys, Atomicity.Repeat(one.t, 3)), two.t, 3);
  }

  // The stores once a client has gone from z to the target, by the copies it holds.
  ghost function Gone(now: Stores, session: SessionRecord, left: ChannelRecord, target: ChannelRecord): Stores {
    Stores(now.repo.Save(left).Save(target.(members := target.members + {session.id})),
           now.clients.Leave(session.id, left.id).0.Join(session.id, target.id).0, now.messages)
  }

  lemma GoesOut(now: System, t: Tid, s: Stores, client: ClientId, z: ChannelId, channel: ChannelId)
    requires SitsIn(s, client, z) && EmptyRoom(s, channel) && client in now.stores.clients.byId
    requires t in now.tasks && now.tasks[t] == Holding(s, client, z, channel)
    ensures After(now, Atomicity.Repeat(t, 5))
      == System(Gone(now.stores, s.clients.byId[client], Without(s.repo.byId[z], client), s.repo.byId[channel]),
                now.tasks[t := Succeed(Nothing)])
  {
    hide RunAlone; hide After; hide Atomicity.Repeat; hide Repo.Save; hide Registry.Leave; hide Registry.Join;
    WritesBoth(now.stores, s.clients.byId[client], Without(s.repo.byId[z], client), s.repo.byId[channel]);
    Atomicity.RepeatRunsAlone(now, t, 5);
  }

  // Both tasks take their copies before one of them writes.
  function Overlapping(t: Tid, u: Tid): seq<Tid> {
    Atomicity.Repeat(t, 3) + Atomicity.Repeat(u, 3) + Atomicity.Repeat(t, 5) + Atomicity.Repeat(u, 5)
  }

  lemma InParts(sys: System, t: Tid, u: Tid)
    ensures After(sys, Overlapping(t, u))
      == After(After(After(After(sys, Atomicity.Repeat(t, 3)), Atomicity.Repeat(u, 3)), Atomicity.Repeat(t, 5)),
               Atomicity.Repeat(u, 5))
  {
    hide After; hide Atomicity.Repeat;
    var p, q := Atomicity.Repeat(t, 3) + Atomicity.Repeat(u, 3), Atomicity.Repeat(t, 5);
    Atomicity.AfterBoth(sys, p + q, Atomicity.Repeat(u, 5));
    Atomicity.AfterBoth(sys, p, q);
    Atomicity.AfterBoth(sys, Atomicity.Repeat(t, 3), Atomicity.Repeat(u, 3));
  }

  // Two clients of one channel go to another one. By their sessions both end in it,
  // but the first is still a member of the channel it left, and of no other.
  lemma FirstStaysBehind(s: Stores, one: Mover, two: Mover, z: ChannelId, channel: ChannelId, walk: seq<ChannelId>,
                         other: seq<ChannelId>)
    requires one.t != two.t && one.client != two.client && z != channel
    requires SitsIn(s, one.client, z) && SitsIn(s, two.client, z) && EmptyRoom(s, channel)
    ensures var end := After(TwoJoins(s, one, two, channel, walk, other), Overlapping(one.t, two.t));
      && end.tasks == map[one.t := Succeed(Nothing), two.t := Succeed(Nothing)]
      && end.stores.repo.Find(z) == Ok(Without(s.repo.byId[z], two.client))
      && end.stores.repo.Find(channel).Ok? && end.stores.repo.Find(channel).value.members == {two.client}
      && end.stores.clients.Find(one.client).Ok? && end.stores.clients.Find(one.client).value.joined == {channel}
      && end.stores.clients.Find(two.client).Ok? && end.stores.clients.Find(two.client).value.joined == {channel}
      && Membership.IsMember(end.stores, one.client, z) && !Membership.HasJoined(end.stores, one.client, z)
  {
    hide After; hide Overlapping; hide Atomicity.Repeat; hide TwoJoins;
    var sys := TwoJoins(s, one, two, channel, walk, other);
    BothCopy(s, one, two, z, channel, walk, other);
    var b := After(After(sys, Atomicity.Repeat(one.t, 3)), Atomicity.Repeat(two.t, 3));
    GoesOut(b, one.t, s, one.client, z, channel);
    var c := After(b, Atomicity.Repeat(one.t, 5));
    GoesOut(c, two.t, s, two.client, z, channel);
    InParts(sys, one.t, two.t);
    hide Holding;
    assert {} + {two.client} == {two.client};
  }
}

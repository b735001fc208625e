/**
 A client on its way out of a channel, because it leaves or joins another one: its
 task takes a copy of the channel, takes itself out of the copy and writes it back.
 Here it meets a message that is being sent to the channel.
 */
module Departures {
  import opened Core
  import opened ChannelRepository
  import opened ClientRegistry
  import opened MessageRepository
  import opened UseCases
  import opened Sections
  import opened Tasks
  import opened Independence
  import opened Races
  import Atomicity
  import Membership
  import Text

  // ----- A departure, section by section -----

  // The loop over the other channels on the way to a target, with z among those to come or not.
  ghost predicate OnTheWay(target: ChannelRecord, rest: seq<ChannelId>, z: ChannelId, toCome: bool) {
    target.id != z && NoDup(rest) && (z in rest <==> toCome)
  }

  ghost predicate Removes(remover: Remover, z: ChannelId, toCome: bool) {
    match remover
    case Joining(target, rest) => OnTheWay(target, rest, z, toCome)
    case Leaving(caller) => caller.ByRequest? && !toCome
    case Expiring(_, _, _) => false
  }

  // The client has yet to take its copy of z.
  ghost predicate Ahead(task: Task, client: ClientId, z: ChannelId) {
    task.Running? &&
    match task.frame
    case JoinerFound(target, _) => target != z && task.op == FindSession(client)
    case TargetFound(session, _) =>
      session.id == client && z in session.joined && task.op.FindChannel? && task.op.channel != z
    case MemberFound(session, other, remover) =>
      session.id == client && task.op == FindChannel(other) && Removes(remover, z, other != z)
    case MemberRemoved(session, other, remover) =>
      && session.id == client && other != z && task.op.SaveChannel? && task.op.record.id == other
      && remover.Joining? && Removes(remover, z, true)
    case OtherLeft(session, other, target, rest) =>
      session.id == client && other != z && task.op == LeaveAtomic(client, other) && OnTheWay(target, rest, z, true)
    case OtherCounted(session, target, rest) =>
      session.id == client && task.op.FindChannel? && OnTheWay(target, rest, z, true)
    case LeaverFound(leaver, channel, caller) =>
      leaver == client && channel == z && caller.ByRequest? && task.op == FindSession(client)
    case _ => false
  }

  // It is about to write the copy back without itself.
  ghost predicate Taking(task: Task, client: ClientId, z: ChannelId, copy: set<ClientId>) {
    && task.Running? && task.frame.MemberRemoved? && task.frame.session.id == client && task.frame.channel == z
    && task.op.SaveChannel? && task.op.record.id == z && task.op.record.members == copy - {client}
    && Removes(task.frame.remover, z, false)
  }

  // It has no more to do with the members of z.
  ghost predicate Clear(task: Task, client: ClientId, z: ChannelId) {
    if task.Done? then task == Succeed(Nothing)
    else
      match task.frame
      case JoinerFound(target, _) => target != z && task.op == FindSession(client)
      case TargetFound(session, _) =>
        session.id == client && z !in session.joined && task.op.FindChannel? && task.op.channel != z
      case MemberFound(session, other, remover) =>
        && session.id == client && other != z && task.op == FindChannel(other)
        && remover.Joining? && Removes(remover, z, false)
      case MemberRemoved(session, other, remover) =>
        && session.id == client && other != z && task.op.SaveChannel? && task.op.record.id == other
        && remover.Joining? && Removes(remover, z, false)
      case OtherLeft(session, other, target, rest) =>
        session.id == client && task.op == LeaveAtomic(client, other) && OnTheWay(target, rest, z, false)
      case OtherCounted(session, target, rest) =>
        session.id == client && task.op.FindChannel? && OnTheWay(target, rest, z, false)
      case TargetSaved(session, target) =>
        session.id == client && target.id != z && task.op == Op.SaveChannel(target)
      case Entered => task.op.JoinAtomic? && task.op.client == client && task.op.channel != z
      case Left(leaver, channel, caller) =>
        leaver == client && channel == z && caller.ByRequest? && task.op == LeaveAtomic(client, z)
      case LeftCounted(leaver, caller) => leaver == client && caller.ByRequest? && task.op == FindChannel(z)
      case _ => false
  }

  // The channel that a join is going to is there.
  ghost predicate TargetExists(task: Task, repo: Repo) {
    task.Running? ==>
      && (task.frame.JoinerFound? ==> task.frame.channel in repo.byId)
      && (task.frame.TargetFound? && task.op.FindChannel? ==> task.op.channel in repo.byId)
  }

  // The client's session does not list z, or is about to drop it.
  ghost predicate Unlisted(s: Stores, task: Task, client: ClientId, z: ChannelId) {
    (task.Running? && task.op == LeaveAtomic(client, z)) || !Membership.HasJoined(s, client, z)
  }

  // One section of the client's task leaves everybody else's session as it was at z.
  ghost predicate Keeps(s: Stores, a: Alone, client: ClientId, z: ChannelId) {
    && Ready(a.stores, z) && a.stores.clients.byId.Keys == s.clients.byId.Keys
    && s.repo.byId.Keys <= a.stores.repo.byId.Keys
    && a.stores.messages == s.messages && TargetExists(a.task, a.stores.repo)
    && forall c :: c != client ==> (Membership.HasJoined(a.stores, c, z) <==> Membership.HasJoined(s, c, z))
  }

  lemma NextOther(session: SessionRecord, target: ChannelRecord, rest: seq<ChannelId>, z: ChannelId, toCome: bool)
    requires OnTheWay(target, rest, z, toCome)
    ensures var task := LeaveOthersOrEnter(session, target, rest);
      && (if toCome then Ahead(task, session.id, z) else Clear(task, session.id, z))
      && task.Running? && !task.frame.JoinerFound? && !task.frame.TargetFound? && !task.op.LeaveAtomic?
  {
    if rest != [] {
      assert rest[0] in rest;
      assert forall x :: x in rest[1..] ==> x in rest && x != rest[0];
      assert forall x :: x in rest ==> x == rest[0] || x in rest[1..];
    }
  }

  // The client is still a member and has not taken its copy, or takes it with this section.
  ghost predicate AheadNext(s: Stores, task: Task, client: ClientId, z: ChannelId)
    requires z in s.repo.byId
  {
    var a := StepAlone(Alone(s, task));
    && Keeps(s, a, client, z) && z in a.stores.repo.byId && a.stores.repo.byId[z] == s.repo.byId[z]
    && Membership.HasJoined(a.stores, client, z) && !Saves(task, z)
    && if Reads(task, z) then Taking(a.task, client, z, s.repo.byId[z].members) else Ahead(a.task, client, z)
  }

  lemma AheadLoop(s: Stores, task: Task, client: ClientId, z: ChannelId)
    requires Ready(s, z) && Ahead(task, client, z) && TargetExists(task, s.repo)
    requires Membership.HasJoined(s, client, z) && (task.frame.TargetFound? || task.frame.OtherCounted?)
    ensures AheadNext(s, task, client, z)
  {
    hide LeaveOthersOrEnter;
    if task.frame.TargetFound? {
      var record, session := s.repo.byId[task.op.channel], task.frame.session;
      var order := InOrder(task.frame.walk, session.joined - {record.id});
      assert z in Elems(order);
      NextOther(session, record, order, z, true);
    } else {
      NextOther(task.frame.session, task.frame.target, task.frame.rest, z, true);
    }
    hide Ahead; hide Taking; hide OnTheWay; hide InOrder;
  }

  lemma AheadWrites(s: Stores, task: Task, client: ClientId, z: ChannelId)
    requires Ready(s, z) && Ahead(task, client, z) && TargetExists(task, s.repo)
    requires Membership.HasJoined(s, client, z) && (task.frame.MemberRemoved? || task.frame.OtherLeft?)
    ensures AheadNext(s, task, client, z)
  {
    hide LeaveOthersOrEnter; hide OnTheWay;
  }

  lemma AheadStep(s: Stores, task: Task, client: ClientId, z: ChannelId)
    requires Ready(s, z) && Ahead(task, client, z) && TargetExists(task, s.repo)
    requires Membership.HasJoined(s, client, z) && client in s.repo.byId[z].members
    ensures AheadNext(s, task, client, z)
  {
    if task.frame.TargetFound? || task.frame.OtherCounted? {
      hide *;
      AheadLoop(s, task, client, z);
    } else if task.frame.MemberRemoved? || task.frame.OtherLeft? {
      hide *;
      AheadWrites(s, task, client, z);
    } else {
      hide LeaveOthersOrEnter; hide OnTheWay;
    }
  }

  lemma TakeStep(s: Stores, task: Task, client: ClientId, z: ChannelId, copy: set<ClientId>)
    requires Ready(s, z) && Taking(task, client, z, copy)
    ensures var a := StepAlone(Alone(s, task));
      && Keeps(s, a, client, z) && a.stores.repo.byId[z].members == copy - {client}
      && Saves(task, z) && !Reads(task, z)
      && Clear(a.task, client, z) && Unlisted(a.stores, a.task, client, z)
  {
  }

  ghost predicate ClearNext(s: Stores, task: Task, client: ClientId, z: ChannelId)
    requires z in s.repo.byId
  {
    var a := StepAlone(Alone(s, task));
    && Keeps(s, a, client, z) && z in a.stores.repo.byId && a.stores.repo.byId[z] == s.repo.byId[z]
    && Clear(a.task, client, z) && Unlisted(a.stores, a.task, client, z)
    && !Saves(task, z) && !Reads(task, z)
  }

  lemma ClearLoop(s: Stores, task: Task, client: ClientId, z: ChannelId)
    requires Ready(s, z) && client in s.clients.byId && Clear(task, client, z) && TargetExists(task, s.repo)
    requires Unlisted(s, task, client, z) && task.Running? && (task.frame.TargetFound? || task.frame.OtherCounted?)
    ensures ClearNext(s, task, client, z)
  {
    hide LeaveOthersOrEnter;
    if task.frame.TargetFound? {
      var record, session := s.repo.byId[task.op.channel], task.frame.session;
      var order := InOrder(task.frame.walk, session.joined - {record.id});
      assert z !in Elems(order);
      NextOther(session, record, order, z, false);
    } else {
      NextOther(task.frame.session, task.frame.target, task.frame.rest, z, false);
    }
    hide Clear; hide OnTheWay; hide InOrder;
  }

  ghost predicate Writes(task: Task) {
    task.Running? && !task.op.FindSession? && !task.op.FindChannel?
  }

  lemma ClearSaves(s: Stores, task: Task, client: ClientId, z: ChannelId)
    requires Ready(s, z) && client in s.clients.byId && Clear(task, client, z) && TargetExists(task, s.repo)
    requires Unlisted(s, task, client, z) && task.Running? && task.op.SaveChannel?
    ensures ClearNext(s, task, client, z)
  {
    hide LeaveOthersOrEnter; hide OnTheWay;
  }

  lemma ClearWrites(s: Stores, task: Task, client: ClientId, z: ChannelId)
    requires Ready(s, z) && client in s.clients.byId && Clear(task, client, z) && TargetExists(task, s.repo)
    requires Unlisted(s, task, client, z) && Writes(task)
    ensures ClearNext(s, task, client, z)
  {
    if task.op.SaveChannel? {
      hide *;
      ClearSaves(s, task, client, z);
    } else {
      hide LeaveOthersOrEnter; hide OnTheWay;
    }
  }

  lemma ClearStep(s: Stores, task: Task, client: ClientId, z: ChannelId)
    requires Ready(s, z) && client in s.clients.byId && Clear(task, client, z) && TargetExists(task, s.repo)
    requires Unlisted(s, task, client, z)
    ensures ClearNext(s, task, client, z)
  {
    if task.Running? && (task.frame.TargetFound? || task.frame.OtherCounted?) {
      hide *;
      ClearLoop(s, task, client, z);
    } else if Writes(task) {
      hide *;
      ClearWrites(s, task, client, z);
    } else {
      hide LeaveOthersOrEnter; hide OnTheWay;
    }
  }

  // What the client's task is doing about z, which began with the members was, if other
  // is the only other client that may have been taken out of it.
  ghost predicate DeparterAt(now: System, me: Mover, past: Past, other: ClientId, z: ChannelId, was: set<ClientId>) {
    && me.t in now.tasks && me.client in now.stores.clients.byId && TargetExists(now.tasks[me.t], now.stores.repo)
    && (past.saved ==> me.client in was)
    && var task, listed := now.tasks[me.t], Membership.HasJoined(now.stores, me.client, z);
       || (Ahead(task, me.client, z) && !past.saved && !past.late && me.client in was && listed)
       || (Taking(task, me.client, z, if past.late then was - {other} else was)
           && !past.saved && me.client in was && listed)
       || (Clear(task, me.client, z) && Unlisted(now.stores, task, me.client, z) && (past.saved || me.client !in was))
  }

  lemma DeparterMoves(now: System, me: Mover, past: Past, otherSaved: bool, other: ClientId, z: ChannelId,
                      was: set<ClientId>)
    requires Ready(now.stores, z) && DeparterAt(now, me, past, other, z, was) && me.client != other
    requires past.late ==> otherSaved
    requires !past.saved && me.client in was ==>
      now.stores.repo.byId[z].members == if otherSaved then was - {other} else was
    ensures var next, task := Move(now, me.t), now.tasks[me.t];
      && DeparterAt(next, me, PastAfter(past, task, z, otherSaved), other, z, was)
      && Keeps(now.stores, Alone(next.stores, next.tasks[me.t]), me.client, z)
      && next.stores.repo.byId[z].members
         == if Saves(task, z) then (if past.late then was - {other} else was) - {me.client}
            else now.stores.repo.byId[z].members
    ensures Saves(now.tasks[me.t], z) ==> !past.saved
  {
    var s, task := now.stores, now.tasks[me.t];
    hide StepAlone; hide Reads; hide Saves;
    var listed := Membership.HasJoined(s, me.client, z);
    if Ahead(task, me.client, z) && !past.saved && !past.late && me.client in was && listed {
      hide Ahead; hide Clear;
      AheadStep(s, task, me.client, z);
      hide Taking;
    } else if Clear(task, me.client, z) && Unlisted(s, task, me.client, z) && (past.saved || me.client !in was) {
      hide Ahead; hide Clear; hide Taking;
      ClearStep(s, task, me.client, z);
    } else {
      hide Ahead; hide Clear;
      TakeStep(s, task, me.client, z, if past.late then was - {other} else was);
      StillListed(s, task, me.client, z, if past.late then was - {other} else was);
      hide Taking;
    }
  }

  lemma StillListed(s: Stores, task: Task, client: ClientId, z: ChannelId, copy: set<ClientId>)
    requires Taking(task, client, z, copy)
    ensures StepAlone(Alone(s, task)).stores.clients == s.clients
  {
  }

  // The other task moves.
  lemma DeparterStays(now: System, next: System, me: Mover, past: Past, other: ClientId, z: ChannelId,
                      was: set<ClientId>, mover: Tid)
    requires DeparterAt(now, me, past, other, z, was) && mover != me.t
    requires me.t in next.tasks && next.tasks[me.t] == now.tasks[me.t]
    requires next.stores.clients.byId.Keys == now.stores.clients.byId.Keys
    requires now.stores.repo.byId.Keys <= next.stores.repo.byId.Keys
    requires Membership.HasJoined(next.stores, me.client, z) <==> Membership.HasJoined(now.stores, me.client, z)
    ensures DeparterAt(next, me, past, other, z, was)
  {
    hide Ahead; hide Taking; hide Clear;
  }

  // ----- A message and a departure -----

  // The request takes the client out of z: a join of another channel that exists, or a leave.
  ghost predicate TakesOut(s: Stores, request: Request, client: ClientId, z: ChannelId) {
    match request
    case JoinChannel(joiner, target, _) => joiner == client && target != z && target in s.repo.byId
    case LeaveChannel(leaver, channel) => leaver == client && channel == z
    case _ => false
  }

  ghost function SendAndDepart(s: Stores, sending: Sending, mover: Mover, request: Request): System {
    System(s, map[sending.t := Start(AsRequest(sending)), mover.t := Start(request)])
  }

  ghost predicate MayDepart(s: Stores, sending: Sending, mover: Mover, request: Request) {
    var z := sending.message.channel;
    && MaySend(s, sending, mover) && TakesOut(s, request, mover.client, z)
    && mover.client in s.repo.byId[z].members && Membership.HasJoined(s, mover.client, z)
  }

  ghost predicate SoFar(s: Stores, sending: Sending, mover: Mover, now: System, saved: bool, late: bool)
    requires sending.message.channel in s.repo.byId
  {
    var z, was := sending.message.channel, s.repo.byId[sending.message.channel].members;
    && Ready(now.stores, z) && now.tasks.Keys == {sending.t, mover.t}
    && now.stores.repo.byId[z].members == RoomSeen(was, was - {mover.client}, saved) && (late ==> saved)
    && SenderAt(now, s, sending, late, RoomSeen(was, was - {mover.client}, late))
    && DeparterAt(now, mover, Past(saved, false), sending.message.sender, z, was)
  }

  lemma DepartStarts(s: Stores, sending: Sending, mover: Mover, request: Request)
    requires MayDepart(s, sending, mover, request)
    ensures SoFar(s, sending, mover, SendAndDepart(s, sending, mover, request), false, false)
  {
  }

  lemma SenderGoesOn(s: Stores, sending: Sending, mover: Mover, request: Request, now: System, saved: bool, late: bool)
    requires MayDepart(s, sending, mover, request) && SoFar(s, sending, mover, now, saved, late)
    ensures sending.t in now.tasks && !Saves(now.tasks[sending.t], sending.message.channel)
    ensures SoFar(s, sending, mover, Move(now, sending.t), saved,
                  late || (Reads(now.tasks[sending.t], sending.message.channel) && saved))
  {
    var z, was := sending.message.channel, s.repo.byId[sending.message.channel].members;
    SenderMoves(now, s, sending, late, saved, was, was - {mover.client});
    hide DeparterAt; hide SenderAt; hide StepAlone; hide Reads;
    DeparterStays(now, Move(now, sending.t), mover, Past(saved, false), sending.message.sender, z, was, sending.t);
  }

  lemma DeparterGoesOn(s: Stores, sending: Sending, mover: Mover, request: Request, now: System, saved: bool,
                       late: bool)
    requires MayDepart(s, sending, mover, request) && SoFar(s, sending, mover, now, saved, late)
    ensures mover.t in now.tasks
    ensures SoFar(s, sending, mover, Move(now, mover.t),
                  saved || Saves(now.tasks[mover.t], sending.message.channel), late)
  {
    var z, was := sending.message.channel, s.repo.byId[sending.message.channel].members;
    DeparterMoves(now, mover, Past(saved, false), false, sending.message.sender, z, was);
    hide DeparterAt; hide StepAlone; hide Reads; hide Saves; hide Start; hide Buffers.Save;
  }

  lemma {:induction false} DepartSoFar(s: Stores, sending: Sending, mover: Mover, request: Request, schedule: seq<Tid>)
    requires MayDepart(s, sending, mover, request)
    ensures var sys, z := SendAndDepart(s, sending, mover, request), sending.message.channel;
      && SoFar(s, sending, mover, After(sys, schedule), Saved(sys, schedule, mover.t, z),
               ReadAfterSave(sys, schedule, sending.t, mover.t, z))
      && !Saved(sys, schedule, sending.t, z)
  {
    hide SoFar; hide Move; hide SendAndDepart; hide Reads; hide Saves;
    var sys, z := SendAndDepart(s, sending, mover, request), sending.message.channel;
    if schedule == [] {
      DepartStarts(s, sending, mover, request);
    } else {
      var before, v := schedule[..|schedule| - 1], schedule[|schedule| - 1];
      var now := After(sys, before);
      DepartSoFar(s, sending, mover, request, before);
      var saved, late := Saved(sys, before, mover.t, z), ReadAfterSave(sys, before, sending.t, mover.t, z);
      SenderGoesOn(s, sending, mover, request, now, saved, late);
      DeparterGoesOn(s, sending, mover, request, now, saved, late);
      PastGrows(sys, schedule, mover.t, sending.t, z);
      PastGrows(sys, schedule, sending.t, mover.t, z);
      if v != sending.t && v != mover.t {
        NotATask(s, sending, mover, now, saved, late, v);
      }
    }
  }

  lemma NotATask(s: Stores, sending: Sending, mover: Mover, now: System, saved: bool, late: bool, v: Tid)
    requires sending.message.channel in s.repo.byId && SoFar(s, sending, mover, now, saved, late)
    requires v != sending.t && v != mover.t
    ensures Move(now, v) == now
  {
  }

  // A message goes to the members in the sender's copy. A client that is leaving the
  // channel meanwhile, or moving to another one, is no member at the end, and gets the
  // message all the same exactly if the sender read the channel before the departure
  // had been written.
  lemma DepartedGetsMessageIff(s: Stores, sending: Sending, mover: Mover, request: Request, schedule: seq<Tid>)
    requires MayDepart(s, sending, mover, request)
    requires Complete(After(SendAndDepart(s, sending, mover, request), schedule))
    ensures var sys, m := SendAndDepart(s, sending, mover, request), sending.message;
      var end, was := After(sys, schedule), s.repo.byId[m.channel].members;
      && end.stores.messages == s.messages.Save(m)
      && end.stores.repo.Find(m.channel).Ok?
      && end.stores.repo.Find(m.channel).value.members == was - {mover.client}
      && !Membership.HasJoined(end.stores, mover.client, m.channel)
      && end.tasks.Keys == {sending.t, mover.t} && end.tasks[mover.t] == Succeed(Nothing) && end.tasks[sending.t].Done?
      && var answer := end.tasks[sending.t].answer.result;
         && answer.Ok? && answer.value.NewMessage? && answer.value.message == m.id
         && (mover.client in answer.value.room <==> !ReadAfterSave(sys, schedule, sending.t, mover.t, m.channel))
         && answer.value.room - {mover.client} == was - {mover.client}
  {
    DepartSoFar(s, sending, mover, request, schedule);
    hide After; hide Saved; hide ReadAfterSave; hide Buffers.Save; hide Reads; hide Saves; hide Text.CreateContent;
    var end := After(SendAndDepart(s, sending, mover, request), schedule);
    assert end.tasks[sending.t].Done? && end.tasks[mover.t].Done?;
    hide Start;
  }

  // A schedule on which it does: the client has moved to another channel before the
  // message is even saved, and the message goes to it nevertheless.
  lemma MessageFollowsDeparted(s: Stores, sending: Sending, mover: Mover, target: ChannelId, walk: seq<ChannelId>)
    returns (before: seq<Tid>, moved: System, end: System)
    requires Membership.Linked(s) && MayDepart(s, sending, mover, JoinChannel(mover.client, target, walk))
    ensures moved == After(SendAndDepart(s, sending, mover, JoinChannel(mover.client, target, walk)), before)
    ensures moved.stores.messages == s.messages && mover.t in moved.tasks && moved.tasks[mover.t] == Succeed(Nothing)
    ensures Membership.IsMember(moved.stores, mover.client, target)
    ensures !Membership.IsMember(moved.stores, mover.client, sending.message.channel)
    ensures end == After(moved, [sending.t, sending.t]) && Complete(end)
    ensures end.stores == moved.stores.(messages := s.messages.Save(sending.message)) && sending.t in end.tasks
    ensures mover.client in s.repo.byId[sending.message.channel].members
    ensures end.tasks[sending.t]
      == Succeed(NewMessage(sending.message.id, s.repo.byId[sending.message.channel].members))
  {
    var m := sending.message;
    var sys := SendAndDepart(s, sending, mover, JoinChannel(mover.client, target, walk));
    before := MovesFirst(s, sending, mover, target, walk);
    moved := After(sys, before);
    MovedIn(s, mover.client, target, m.channel);
    hide Move; hide Start; hide BothTurns; hide Buffers.Save; hide Text.CreateContent; hide Membership.Linked;
    hide Membership.InOnly; hide After;
    SenderTurns(moved, sending.t, m, s.repo.byId[m.channel].members);
    NoTurns(moved);
    TwoTurns(moved, [], sending.t);
    assert [] + [sending.t, sending.t] == [sending.t, sending.t];
    end := After(moved, [sending.t, sending.t]);
  }

  // The sender takes its copy, and then the client moves.
  lemma MovesFirst(s: Stores, sending: Sending, mover: Mover, target: ChannelId, walk: seq<ChannelId>)
    returns (before: seq<Tid>)
    requires Membership.Linked(s) && MayDepart(s, sending, mover, JoinChannel(mover.client, target, walk))
    ensures var sys, m := SendAndDepart(s, sending, mover, JoinChannel(mover.client, target, walk)), sending.message;
      After(sys, before) == System(Membership.InOnly(s, mover.client, target),
                                   map[sending.t := Running(SaveMessage(m), Sent(m.id, s.repo.byId[m.channel].members)),
                                       mover.t := Succeed(Nothing)])
  {
    hide Move; hide Start; hide BothTurns; hide Text.CreateContent; hide Membership.Linked; hide Membership.InOnly;
    hide After;
    var m := sending.message;
    var sys := SendAndDepart(s, sending, mover, JoinChannel(mover.client, target, walk));
    SenderTurns(sys, sending.t, m, s.repo.byId[m.channel].members);
    var a := BothTurns(sys, sending.t);
    NoTurns(sys);
    TwoTurns(sys, [], sending.t);
    var n := JoinAlone(s, mover, target, walk);
    Atomicity.RepeatRunsAlone(a, mover.t, n);
    before := [sending.t, sending.t] + Atomicity.Repeat(mover.t, n);
    assert [] + [sending.t, sending.t] == [sending.t, sending.t];
    Atomicity.AfterBoth(sys, [sending.t, sending.t], Atomicity.Repeat(mover.t, n));
  }

  lemma NoTurns(sys: System)
    ensures After(sys, []) == sys
  {
  }

  // Only the client itself is no longer a member of the channel it came from.
  lemma MovedIn(s: Stores, client: ClientId, target: ChannelId, z: ChannelId)
    requires client in s.clients.byId && target in s.repo.byId && z in s.repo.byId && z != target
    ensures var moved := Membership.InOnly(s, client, target);
      && moved.messages == s.messages && moved.clients.byId.Keys == s.clients.byId.Keys
      && Membership.IsMember(moved, client, target) && !Membership.IsMember(moved, client, z)
      && z in moved.repo.byId && moved.repo.byId[z].members == s.repo.byId[z].members - {client}
  {
  }

  lemma TwoTurns(sys: System, schedule: seq<Tid>, t: Tid)
    ensures After(sys, schedule + [t, t]) == BothTurns(After(sys, schedule), t)
  {
    hide Move;
    var q := schedule + [t, t];
    assert q[..|q| - 1] == schedule + [t] && (schedule + [t])[..|schedule|] == schedule;
  }

  // A join that nobody interrupts.
  lemma JoinAlone(s: Stores, mover: Mover, target: ChannelId, walk: seq<ChannelId>) returns (n: nat)
    requires Membership.Linked(s) && mover.client in s.clients.byId && target in s.repo.byId
    ensures RunAlone(Alone(s, Start(JoinChannel(mover.client, target, walk))), n)
      == Alone(Membership.InOnly(s, mover.client, target), Succeed(Nothing))
  {
    Membership.LinkedKeys(s, mover.client, target);
    hide Membership.Linked;
    n := Atomicity.TaskIsUseCase(s, JoinChannel(mover.client, target, walk));
    Membership.JoinEffect(s, mover.client, target, Atomicity.JoinOrder(s, mover.client, target, walk));
    hide UseCases.Join; hide Membership.InOnly; hide RunAlone;
  }
}

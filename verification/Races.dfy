/**
 Requests that overlap on a channel. Joining and sending work on a copy of the
 channel that may be out of date by the time it is written back or sent to: the
 link between members and joined channels is a promise about use cases that do
 not overlap, and so is that a member gets every message. Here is exactly when
 two overlapping requests keep these promises all the same.
 */
module Races {
  import opened Core
  import opened ChannelRepository
  import opened ClientRegistry
  import opened UseCases
  import opened Sections
  import opened Tasks
  import opened Independence
  import opened MessageRepository
  import Membership
  import Text

  // ----- Reading and writing a channel -----

  // The section in which a joiner, a leaver or a sender takes its copy of the channel.
  ghost predicate Reads(task: Task, channel: ChannelId) {
    && task.Running? && task.op == FindChannel(channel)
    && (task.frame.TargetFound? || task.frame.MemberFound? || task.frame.RoomFound?)
  }

  ghost predicate Saves(task: Task, channel: ChannelId) {
    task.Running? && task.op.SaveChannel? && task.op.record.id == channel
  }

  // During the schedule, t has written the channel.
  ghost predicate Saved(sys: System, schedule: seq<Tid>, t: Tid, channel: ChannelId) {
    schedule != [] &&
    var before := schedule[..|schedule| - 1];
    var now := After(sys, before);
    || Saved(sys, before, t, channel)
    || (schedule[|schedule| - 1] == t && t in now.tasks && Saves(now.tasks[t], channel))
  }

  // During the schedule, t has read the channel after u had written it.
  ghost predicate ReadAfterSave(sys: System, schedule: seq<Tid>, t: Tid, u: Tid, channel: ChannelId) {
    schedule != [] &&
    var before := schedule[..|schedule| - 1];
    var now := After(sys, before);
    || ReadAfterSave(sys, before, t, u, channel)
    || (schedule[|schedule| - 1] == t && t in now.tasks && Reads(now.tasks[t], channel)
        && Saved(sys, before, u, channel))
  }

  // What a task has done so far: whether it wrote the channel, and whether it read
  // the channel after the other task had written it.
  datatype Past = Past(saved: bool, late: bool)

  ghost function PastOf(sys: System, schedule: seq<Tid>, t: Tid, u: Tid, channel: ChannelId): Past {
    Past(Saved(sys, schedule, t, channel), ReadAfterSave(sys, schedule, t, u, channel))
  }

  ghost function PastAfter(past: Past, task: Task, channel: ChannelId, otherSaved: bool): Past {
    Past(past.saved || Saves(task, channel), past.late || (Reads(task, channel) && otherSaved))
  }

  lemma PastGrows(sys: System, schedule: seq<Tid>, t: Tid, u: Tid, channel: ChannelId)
    requires schedule != [] && t in After(sys, schedule[..|schedule| - 1]).tasks
    ensures var before, v := schedule[..|schedule| - 1], schedule[|schedule| - 1];
      PastOf(sys, schedule, t, u, channel)
        == if v == t then PastAfter(PastOf(sys, before, t, u, channel), After(sys, before).tasks[t], channel,
                                    Saved(sys, before, u, channel))
           else PastOf(sys, before, t, u, channel)
  {
  }

  // ----- A join, section by section -----

  // Everything is stored under its own id, and the channel exists.
  ghost predicate Ready(s: Stores, channel: ChannelId) {
    && channel in s.repo.byId
    && (forall id :: id in s.repo.byId ==> s.repo.byId[id].id == id)
    && (forall c :: c in s.clients.byId ==> s.clients.byId[c].id == c)
  }

  // The channel has not been read yet.
  ghost predicate ToRead(task: Task, client: ClientId, channel: ChannelId) {
    task.Running? &&
    match task.frame
    case JoinerFound(room, _) => room == channel && task.op == FindSession(client)
    case TargetFound(session, _) => session.id == client && task.op == FindChannel(channel)
    case _ => false
  }

  ghost predicate CopyIs(session: SessionRecord, target: ChannelRecord, rest: seq<ChannelId>,
                         client: ClientId, channel: ChannelId, copy: set<ClientId>)
  {
    session.id == client && target.id == channel && target.members == copy && channel !in rest
  }

  ghost predicate RemoverHolds(session: SessionRecord, remover: Remover, client: ClientId, channel: ChannelId,
                               copy: set<ClientId>)
  {
    remover.Joining? && CopyIs(session, remover.target, remover.rest, client, channel, copy)
  }

  // The channel has been read, and the copy not been written back.
  ghost predicate Holds(task: Task, client: ClientId, channel: ChannelId, copy: set<ClientId>) {
    task.Running? &&
    match task.frame
    case MemberFound(session, other, remover) =>
      RemoverHolds(session, remover, client, channel, copy) && other != channel && task.op == FindChannel(other)
    case MemberRemoved(session, other, remover) =>
      && RemoverHolds(session, remover, client, channel, copy) && other != channel
      && task.op.SaveChannel? && task.op.record.id == other
    case OtherLeft(session, other, target, rest) =>
      CopyIs(session, target, rest, client, channel, copy) && other != channel && task.op == LeaveAtomic(client, other)
    case OtherCounted(session, target, rest) =>
      CopyIs(session, target, rest, client, channel, copy) && task.op.FindChannel?
    case TargetSaved(session, target) =>
      && session.id == client && client !in copy && task.op == Op.SaveChannel(target)
      && target.id == channel && target.members == copy + {client}
    case _ => false
  }

  ghost predicate HasEntered(task: Task, client: ClientId, channel: ChannelId) {
    task == Running(JoinAtomic(client, channel), Entered) || task == Succeed(Nothing)
  }

  // One section of a joiner: the same clients are live, and the channel is listed by
  // the joiner's session from the last section on, and otherwise by the same sessions.
  ghost predicate Follows(s: Stores, a: Alone, client: ClientId, channel: ChannelId) {
    && Ready(a.stores, channel) && a.stores.clients.byId.Keys == s.clients.byId.Keys
    && forall c :: (Membership.HasJoined(a.stores, c, channel)
                    <==> Membership.HasJoined(s, c, channel) || (c == client && a.task.Done?))
  }

  lemma EnterNext(session: SessionRecord, target: ChannelRecord, rest: seq<ChannelId>, client: ClientId,
                  channel: ChannelId, copy: set<ClientId>)
    requires CopyIs(session, target, rest, client, channel, copy)
    ensures var task := LeaveOthersOrEnter(session, target, rest);
      && task.Running?
      && (Holds(task, client, channel, copy) || (client in copy && HasEntered(task, client, channel)))
  {
    if rest != [] {
      assert rest[0] in rest;
    }
  }

  lemma ReadStep(s: Stores, task: Task, client: ClientId, channel: ChannelId)
    requires Ready(s, channel) && client in s.clients.byId && ToRead(task, client, channel)
    ensures var a, copy := StepAlone(Alone(s, task)), s.repo.byId[channel].members;
      && a.stores == s && Follows(s, a, client, channel)
      && if Reads(task, channel)
         then Holds(a.task, client, channel, copy) || (client in copy && HasEntered(a.task, client, channel))
         else ToRead(a.task, client, channel)
  {
    hide LeaveOthersOrEnter;
    if task.frame.TargetFound? {
      var record, session := s.repo.byId[channel], task.frame.session;
      var order := InOrder(task.frame.walk, session.joined - {channel});
      assert channel !in Elems(order);
      EnterNext(session, record, order, client, channel, record.members);
    }
  }

  lemma HoldStep(s: Stores, task: Task, client: ClientId, channel: ChannelId, copy: set<ClientId>)
    requires Ready(s, channel) && client in s.clients.byId && Holds(task, client, channel, copy)
    ensures var a := StepAlone(Alone(s, task));
      && Follows(s, a, client, channel)
      && if Saves(task, channel)
         then client !in copy && a.stores.repo.byId[channel].members == copy + {client}
              && HasEntered(a.task, client, channel)
         else a.stores.repo.byId[channel].members == s.repo.byId[channel].members
              && (Holds(a.task, client, channel, copy) || (client in copy && HasEntered(a.task, client, channel)))
  {
    hide LeaveOthersOrEnter;
    if task.frame.OtherCounted? {
      EnterNext(task.frame.session, task.frame.target, task.frame.rest, client, channel, copy);
    }
  }

  lemma EnterStep(s: Stores, task: Task, client: ClientId, channel: ChannelId)
    requires Ready(s, channel) && client in s.clients.byId && HasEntered(task, client, channel)
    requires task.Done? ==> Membership.HasJoined(s, client, channel)
    ensures var a := StepAlone(Alone(s, task));
      Follows(s, a, client, channel) && a.stores.repo == s.repo && a.task == Succeed(Nothing)
  {
  }

  // A client and the task that joins it to a channel or takes it out of one.
  datatype Mover = Mover(t: Tid, client: ClientId)

  // What the joiner's task is doing, if other is the only client that may have been
  // added to the channel, which began with the members was.
  ghost predicate JoinerAt(now: System, me: Mover, past: Past, other: ClientId, channel: ChannelId,
                           was: set<ClientId>)
  {
    && me.t in now.tasks && me.client in now.stores.clients.byId
    && (now.tasks[me.t].Done? ==> Membership.HasJoined(now.stores, me.client, channel))
    && (past.saved ==> me.client !in was)
    && var task := now.tasks[me.t];
       || (ToRead(task, me.client, channel) && !past.saved && !past.late)
       || (Holds(task, me.client, channel, if past.late then was + {other} else was) && !past.saved)
       || (HasEntered(task, me.client, channel) && (past.saved || me.client in was))
  }

  lemma JoinerMoves(now: System, me: Mover, past: Past, otherSaved: bool, other: ClientId, channel: ChannelId,
                    was: set<ClientId>)
    requires Ready(now.stores, channel) && JoinerAt(now, me, past, other, channel, was) && me.client != other
    requires past.late ==> otherSaved
    requires !past.saved ==> now.stores.repo.byId[channel].members == if otherSaved then was + {other} else was
    ensures var next, task := Move(now, me.t), now.tasks[me.t];
      && JoinerAt(next, me, PastAfter(past, task, channel, otherSaved), other, channel, was)
      && Follows(now.stores, Alone(next.stores, next.tasks[me.t]), me.client, channel)
      && next.stores.repo.byId[channel].members
         == if Saves(task, channel) then (if past.late then was + {other} else was) + {me.client}
            else now.stores.repo.byId[channel].members
    ensures Saves(now.tasks[me.t], channel) ==> !past.saved
  {
    var s, task := now.stores, now.tasks[me.t];
    hide StepAlone;
    if ToRead(task, me.client, channel) {
      ReadStep(s, task, me.client, channel);
      hide ToRead; hide Holds;
    } else if Holds(task, me.client, channel, if past.late then was + {other} else was) {
      HoldStep(s, task, me.client, channel, if past.late then was + {other} else was);
    } else {
      EnterStep(s, task, me.client, channel);
    }
  }

  // ----- Two joins of one channel -----

  ghost predicate MembersAre(members: set<ClientId>, was: set<ClientId>, one: ClientId, p: Past, two: ClientId,
                             q: Past)
  {
    if p.saved && q.saved && !p.late && !q.late then members == was + {one} || members == was + {two}
    else members == was + (if p.saved then {one} else {}) + (if q.saved then {two} else {})
  }

  ghost predicate Both(now: System, channel: ChannelId, was: set<ClientId>, one: Mover, p: Past, two: Mover,
                       q: Past)
  {
    && Ready(now.stores, channel)
    && JoinerAt(now, one, p, two.client, channel, was) && JoinerAt(now, two, q, one.client, channel, was)
    && (p.late ==> q.saved) && (q.late ==> p.saved)
    && MembersAre(now.stores.repo.byId[channel].members, was, one.client, p, two.client, q)
  }

  lemma OneMoves(now: System, channel: ChannelId, was: set<ClientId>, one: Mover, p: Past, two: Mover, q: Past)
    requires Both(now, channel, was, one, p, two, q) && one.t != two.t && one.client != two.client
    ensures Both(Move(now, one.t), channel, was, one, PastAfter(p, now.tasks[one.t], channel, q.saved), two, q)
    ensures Both(Move(now, one.t), channel, was, two, q, one, PastAfter(p, now.tasks[one.t], channel, q.saved))
    ensures Follows(now.stores, Alone(Move(now, one.t).stores, Move(now, one.t).tasks[one.t]), one.client, channel)
    ensures Move(now, one.t).tasks[two.t] == now.tasks[two.t]
  {
    JoinerMoves(now, one, p, q.saved, two.client, channel, was);
    hide StepAlone; hide ToRead; hide Holds; hide HasEntered; hide Saves; hide Reads;
  }

  // The channel is on the list of those sessions that had it, and of those that have joined.
  ghost predicate Listed(s: Stores, now: System, channel: ChannelId, one: Mover, two: Mover) {
    one.t in now.tasks && two.t in now.tasks &&
    forall c :: (Membership.HasJoined(now.stores, c, channel)
                 <==> || Membership.HasJoined(s, c, channel)
                      || (c == one.client && now.tasks[one.t].Done?) || (c == two.client && now.tasks[two.t].Done?))
  }

  // Two clients join one channel; their sessions may be in other channels.
  ghost function TwoJoins(s: Stores, one: Mover, two: Mover, channel: ChannelId, walk: seq<ChannelId>,
                          other: seq<ChannelId>): System
  {
    System(s, map[one.t := Start(JoinChannel(one.client, channel, walk)),
                  two.t := Start(JoinChannel(two.client, channel, other))])
  }

  ghost predicate MayJoin(s: Stores, one: Mover, two: Mover, channel: ChannelId) {
    && Ready(s, channel) && one.t != two.t && one.client != two.client
    && one.client in s.clients.byId && two.client in s.clients.byId
  }

  lemma {:induction false} JoinsSoFar(s: Stores, one: Mover, two: Mover, channel: ChannelId, walk: seq<ChannelId>,
                                      other: seq<ChannelId>, schedule: seq<Tid>)
    requires MayJoin(s, one, two, channel)
    ensures var sys := TwoJoins(s, one, two, channel, walk, other);
      var now := After(sys, schedule);
      && Both(now, channel, s.repo.byId[channel].members, one, PastOf(sys, schedule, one.t, two.t, channel),
              two, PastOf(sys, schedule, two.t, one.t, channel))
      && Listed(s, now, channel, one, two)
      && now.tasks.Keys == {one.t, two.t}
  {
    var sys := TwoJoins(s, one, two, channel, walk, other);
    if schedule != [] {
      var before, v := schedule[..|schedule| - 1], schedule[|schedule| - 1];
      var now, was := After(sys, before), s.repo.byId[channel].members;
      hide Both; hide StepAlone; hide Reads; hide Saves;
      JoinsSoFar(s, one, two, channel, walk, other, before);
      var p, q := PastOf(sys, before, one.t, two.t, channel), PastOf(sys, before, two.t, one.t, channel);
      PastGrows(sys, schedule, one.t, two.t, channel);
      PastGrows(sys, schedule, two.t, one.t, channel);
      if v == one.t {
        OneMoves(now, channel, was, one, p, two, q);
      } else if v == two.t {
        BothWays(now, channel, was, one, p, two, q);
        OneMoves(now, channel, was, two, q, one, p);
      }
    }
  }

  lemma BothWays(now: System, channel: ChannelId, was: set<ClientId>, one: Mover, p: Past, two: Mover, q: Past)
    requires Both(now, channel, was, one, p, two, q)
    ensures Both(now, channel, was, two, q, one, p)
  {
  }

  // Both joins succeed under every schedule, and afterwards both sessions list the
  // channel. Both clients are members, with all that were before, exactly if one of
  // them was a member before or one task read the channel after the other wrote it;
  // otherwise one of the two is missing.
  lemma BothAreMembersIff(s: Stores, one: Mover, two: Mover, channel: ChannelId, walk: seq<ChannelId>,
                          other: seq<ChannelId>, schedule: seq<Tid>)
    requires MayJoin(s, one, two, channel)
    requires Complete(After(TwoJoins(s, one, two, channel, walk, other), schedule))
    ensures var sys := TwoJoins(s, one, two, channel, walk, other);
      var end, was := After(sys, schedule), s.repo.byId[channel].members;
      && end.tasks == map[one.t := Succeed(Nothing), two.t := Succeed(Nothing)]
      && (forall c :: (Membership.HasJoined(end.stores, c, channel)
                       <==> Membership.HasJoined(s, c, channel) || c == one.client || c == two.client))
      && channel in end.stores.repo.byId
      && var members := end.stores.repo.byId[channel].members;
         && (members == was + {one.client, two.client}
             <==> || one.client in was || two.client in was
                  || ReadAfterSave(sys, schedule, one.t, two.t, channel)
                  || ReadAfterSave(sys, schedule, two.t, one.t, channel))
         && (|| members == was + {one.client, two.client}
             || members == was + {one.client} || members == was + {two.client})
  {
    var sys := TwoJoins(s, one, two, channel, walk, other);
    JoinsSoFar(s, one, two, channel, walk, other, schedule);
    hide After; hide Saved; hide ReadAfterSave;
    var end := After(sys, schedule);
    assert end.tasks[one.t].Done? && end.tasks[two.t].Done?;
  }

  ghost predicate LinkedAt(s: Stores, channel: ChannelId) {
    forall c :: (Membership.IsMember(s, c, channel) <==> Membership.HasJoined(s, c, channel))
  }

  // So the two sides of membership agree at the end exactly on that condition.
  lemma LinkSurvivesIff(s: Stores, one: Mover, two: Mover, channel: ChannelId, walk: seq<ChannelId>,
                        other: seq<ChannelId>, schedule: seq<Tid>)
    requires MayJoin(s, one, two, channel) && LinkedAt(s, channel)
    requires Complete(After(TwoJoins(s, one, two, channel, walk, other), schedule))
    ensures var sys := TwoJoins(s, one, two, channel, walk, other);
      var was := s.repo.byId[channel].members;
      LinkedAt(After(sys, schedule).stores, channel)
      <==> || one.client in was || two.client in was
           || ReadAfterSave(sys, schedule, one.t, two.t, channel)
           || ReadAfterSave(sys, schedule, two.t, one.t, channel)
  {
    var sys := TwoJoins(s, one, two, channel, walk, other);
    BothAreMembersIff(s, one, two, channel, walk, other, schedule);
    hide After; hide Saved; hide ReadAfterSave; hide Complete;
    var end, was := After(sys, schedule).stores, s.repo.byId[channel].members;
    assert forall c :: Membership.IsMember(s, c, channel) <==> c in was;
    var members := end.repo.byId[channel].members;
    assert forall c :: Membership.IsMember(end, c, channel) <==> c in members;
    assert forall c :: Membership.HasJoined(end, c, channel) <==> c in was + {one.client, two.client};
    assert members == was + {one.client, two.client}
      <==> forall c :: c in members <==> c in was + {one.client, two.client};
  }

  // A session in no channel, and a channel without members.
  ghost predicate Waiting(s: Stores, client: ClientId) {
    client in s.clients.byId && s.clients.byId[client].id == client && s.clients.byId[client].joined == {}
  }

  ghost predicate EmptyRoom(s: Stores, channel: ChannelId) {
    channel in s.repo.byId && s.repo.byId[channel].id == channel && s.repo.byId[channel].members == {}
  }

  ghost function BothTurns(sys: System, t: Tid): System {
    Move(Move(sys, t), t)
  }

  // The first two sections read the session and a copy of the channel.
  lemma ReadsRoom(sys: System, t: Tid, client: ClientId, channel: ChannelId, walk: seq<ChannelId>)
    requires t in sys.tasks && sys.tasks[t] == Start(JoinChannel(client, channel, walk))
    requires Waiting(sys.stores, client) && channel in sys.stores.repo.byId
    requires sys.stores.repo.byId[channel].id == channel && client !in sys.stores.repo.byId[channel].members
    ensures var room := sys.stores.repo.byId[channel];
      var joined := room.(members := room.members + {client});
      BothTurns(sys, t) == System(sys.stores, sys.tasks[t :=
        Running(Op.SaveChannel(joined), TargetSaved(sys.stores.clients.byId[client], joined))])
  {
    var session := sys.stores.clients.byId[client];
    EnumeratesLength(InOrder(walk, session.joined - {channel}), {});
  }

  // The last two write the copy back and enter the channel into the session.
  lemma WritesCopy(sys: System, t: Tid, session: SessionRecord, joined: ChannelRecord)
    requires t in sys.tasks && sys.tasks[t] == Running(Op.SaveChannel(joined), TargetSaved(session, joined))
    requires session.id in sys.stores.clients.byId
    ensures var s := sys.stores;
      BothTurns(sys, t) == System(
        Stores(s.repo.Save(joined), s.clients.Join(session.id, joined.id).0, s.messages),
        sys.tasks[t := Succeed(Nothing)])
  {
  }

  // A schedule on which the condition fails: both joins succeed, and yet only the
  // second client is a member.
  lemma FirstJoinIsLost(s: Stores, one: Mover, two: Mover, channel: ChannelId, walk: seq<ChannelId>,
                        other: seq<ChannelId>)
    requires one.t != two.t && one.client != two.client
    requires Waiting(s, one.client) && Waiting(s, two.client) && EmptyRoom(s, channel)
    ensures var end := BothTurns(BothTurns(BothTurns(BothTurns(
                         TwoJoins(s, one, two, channel, walk, other), one.t), two.t), one.t), two.t);
      && end.tasks == map[one.t := Succeed(Nothing), two.t := Succeed(Nothing)]
      && end.stores.repo.Find(channel).Ok? && end.stores.repo.Find(channel).value.members == {two.client}
      && end.stores.clients.Find(one.client).Ok? && end.stores.clients.Find(one.client).value.joined == {channel}
  {
    hide Move; hide Start; hide BothTurns;
    var sys := TwoJoins(s, one, two, channel, walk, other);
    ReadsRoom(sys, one.t, one.client, channel, walk);
    var a := BothTurns(sys, one.t);
    ReadsRoom(a, two.t, two.client, channel, other);
    var b := BothTurns(a, two.t);
    var record := s.repo.byId[channel];
    assert {} + {one.client} == {one.client} && {} + {two.client} == {two.client};
    WritesCopy(b, one.t, s.clients.byId[one.client], record.(members := {one.client}));
    var c := BothTurns(b, one.t);
    WritesCopy(c, two.t, s.clients.byId[two.client], record.(members := {two.client}));
  }

  // ----- A message and a join -----

  // A task that sends a message, as it is going to be saved.
  datatype Sending = Sending(t: Tid, message: Message)

  ghost function AsRequest(sending: Sending): Request {
    var m := sending.message;
    SendMessage(m.sender, m.channel, m.content, m.id, m.sentAt)
  }

  ghost function SendAndJoin(s: Stores, sending: Sending, joiner: Mover, walk: seq<ChannelId>): System {
    System(s, map[sending.t := Start(AsRequest(sending)),
                  joiner.t := Start(JoinChannel(joiner.client, sending.message.channel, walk))])
  }

  ghost predicate MaySend(s: Stores, sending: Sending, joiner: Mover) {
    var m := sending.message;
    && Ready(s, m.channel) && sending.t != joiner.t && m.sender != joiner.client
    && m.sender in s.clients.byId && joiner.client in s.clients.byId
    && m.sender in s.repo.byId[m.channel].members && Text.CreateContent(m.content) == Ok(m.content)
  }

  // What the sender's task is doing; room is the copy it has read.
  ghost predicate SenderAt(now: System, s: Stores, sending: Sending, late: bool, room: set<ClientId>) {
    && sending.t in now.tasks && sending.message.sender in now.stores.clients.byId
    && var m, task := sending.message, now.tasks[sending.t];
       || (now.stores.messages == s.messages && !late && task == Start(AsRequest(sending)))
       || (now.stores.messages == s.messages && !late && task == RoomFinding(m))
       || (now.stores.messages == s.messages && task == Running(SaveMessage(m), Sent(m.id, room)))
       || (now.stores.messages == s.messages.Save(m) && task == Succeed(NewMessage(m.id, room)))
  }

  function RoomSeen(was: set<ClientId>, becomes: set<ClientId>, seen: bool): set<ClientId> {
    if seen then becomes else was
  }

  function RoomFinding(m: Message): Task {
    Running(FindChannel(m.channel), RoomFound(m.sender, m.channel, m.content, m.id, m.sentAt))
  }

  lemma SenderSteps(s: Stores, m: Message, seen: set<ClientId>)
    requires m.channel in s.repo.byId && m.sender in s.clients.byId && m.sender in s.repo.byId[m.channel].members
    requires Text.CreateContent(m.content) == Ok(m.content)
    ensures var room, end := s.repo.byId[m.channel].members, Succeed(NewMessage(m.id, seen));
      && StepAlone(Alone(s, Start(SendMessage(m.sender, m.channel, m.content, m.id, m.sentAt))))
        == Alone(s, RoomFinding(m))
      && StepAlone(Alone(s, RoomFinding(m))) == Alone(s, Running(SaveMessage(m), Sent(m.id, room)))
      && StepAlone(Alone(s, Running(SaveMessage(m), Sent(m.id, seen))))
        == Alone(s.(messages := s.messages.Save(m)), end)
      && StepAlone(Alone(s, end)) == Alone(s, end)
  {
    hide Text.CreateContent; hide Buffers.Save;
  }

  lemma SenderOps(m: Message, seen: set<ClientId>)
    ensures !Reads(Start(SendMessage(m.sender, m.channel, m.content, m.id, m.sentAt)), m.channel)
    ensures !Saves(Start(SendMessage(m.sender, m.channel, m.content, m.id, m.sentAt)), m.channel)
    ensures Reads(RoomFinding(m), m.channel) && !Saves(RoomFinding(m), m.channel)
    ensures !Reads(Running(SaveMessage(m), Sent(m.id, seen)), m.channel)
    ensures !Saves(Running(SaveMessage(m), Sent(m.id, seen)), m.channel)
  {
  }

  // One section of the sender, if the only change to the channel is that another task
  // writes it once.
  lemma SenderMoves(now: System, s: Stores, sending: Sending, late: bool, saved: bool, was: set<ClientId>,
                    becomes: set<ClientId>)
    requires Ready(now.stores, sending.message.channel)
    requires sending.message.sender in was && sending.message.sender in becomes
    requires Text.CreateContent(sending.message.content) == Ok(sending.message.content)
    requires now.stores.repo.byId[sending.message.channel].members == RoomSeen(was, becomes, saved)
    requires SenderAt(now, s, sending, late, RoomSeen(was, becomes, late)) && (late ==> saved)
    ensures var next := Move(now, sending.t);
      var late' := late || (Reads(now.tasks[sending.t], sending.message.channel) && saved);
      && SenderAt(next, s, sending, late', RoomSeen(was, becomes, late'))
      && next.stores.repo == now.stores.repo && next.stores.clients == now.stores.clients
    ensures !Saves(now.tasks[sending.t], sending.message.channel)
  {
    SenderSteps(now.stores, sending.message, RoomSeen(was, becomes, late));
    SenderOps(sending.message, RoomSeen(was, becomes, late));
    hide StepAlone; hide Text.CreateContent; hide Ready; hide Start; hide Reads; hide Saves; hide Buffers.Save;
    hide RoomFinding;
    if now.tasks[sending.t].Done? {
      hide RoomSeen;
    }
  }

  lemma JoinerLeavesMessages(now: System, me: Mover, past: Past, other: ClientId, channel: ChannelId,
                             was: set<ClientId>)
    requires JoinerAt(now, me, past, other, channel, was)
    ensures Move(now, me.t).stores.messages == now.stores.messages
    ensures Reads(now.tasks[me.t], channel) ==> !past.saved
  {
    hide Resume; hide ReplyTo; hide RepoAfter; hide ClientsAfter;
  }

  lemma {:induction false} SendSoFar(s: Stores, sending: Sending, joiner: Mover, walk: seq<ChannelId>,
                                     schedule: seq<Tid>)
    requires MaySend(s, sending, joiner)
    ensures var sys, channel := SendAndJoin(s, sending, joiner, walk), sending.message.channel;
      var now, was := After(sys, schedule), s.repo.byId[channel].members;
      var saved := Saved(sys, schedule, joiner.t, channel);
      var late := ReadAfterSave(sys, schedule, sending.t, joiner.t, channel);
      && Ready(now.stores, channel) && now.tasks.Keys == {sending.t, joiner.t}
      && now.stores.repo.byId[channel].members == RoomSeen(was, was + {joiner.client}, saved) && (late ==> saved)
      && SenderAt(now, s, sending, late, RoomSeen(was, was + {joiner.client}, late))
      && JoinerAt(now, joiner, Past(saved, false), sending.message.sender, channel, was)
      && !Saved(sys, schedule, sending.t, channel)
  {
    var sys, channel := SendAndJoin(s, sending, joiner, walk), sending.message.channel;
    if schedule != [] {
      var before, v := schedule[..|schedule| - 1], schedule[|schedule| - 1];
      var now, was := After(sys, before), s.repo.byId[channel].members;
      SendSoFar(s, sending, joiner, walk, before);
      var saved := Saved(sys, before, joiner.t, channel);
      var late := ReadAfterSave(sys, before, sending.t, joiner.t, channel);
      PastGrows(sys, schedule, joiner.t, sending.t, channel);
      PastGrows(sys, schedule, sending.t, joiner.t, channel);
      hide StepAlone; hide ToRead; hide Holds; hide HasEntered; hide Reads; hide Saves; hide Start;
      if v == sending.t {
        SenderMoves(now, s, sending, late, saved, was, was + {joiner.client});
      } else if v == joiner.t {
        JoinerMoves(now, joiner, Past(saved, false), false, sending.message.sender, channel, was);
        JoinerLeavesMessages(now, joiner, Past(saved, false), sending.message.sender, channel, was);
      }
    }
  }

  // A message is saved and goes to the members in the sender's copy. A client that is
  // joining meanwhile is a member at the end, and gets the message exactly if it was a
  // member before or the sender read the channel after the join had written it.
  lemma NewMemberGetsMessageIff(s: Stores, sending: Sending, joiner: Mover, walk: seq<ChannelId>, schedule: seq<Tid>)
    requires MaySend(s, sending, joiner)
    requires Complete(After(SendAndJoin(s, sending, joiner, walk), schedule))
    ensures var sys, m := SendAndJoin(s, sending, joiner, walk), sending.message;
      var end, was := After(sys, schedule), s.repo.byId[m.channel].members;
      && end.stores.messages == s.messages.Save(m)
      && end.stores.repo.Find(m.channel).Ok?
      && end.stores.repo.Find(m.channel).value.members == was + {joiner.client}
      && sending.t in end.tasks && end.tasks[sending.t].Done?
      && var answer := end.tasks[sending.t].answer.result;
         && answer.Ok? && answer.value.NewMessage? && answer.value.message == m.id
         && (joiner.client in answer.value.room
             <==> joiner.client in was || ReadAfterSave(sys, schedule, sending.t, joiner.t, m.channel))
         && answer.value.room - {joiner.client} == was - {joiner.client}
  {
    SendSoFar(s, sending, joiner, walk, schedule);
    hide After; hide Saved; hide ReadAfterSave; hide Buffers.Save; hide Reads; hide Saves; hide Text.CreateContent;
    var end := After(SendAndJoin(s, sending, joiner, walk), schedule);
    assert end.tasks[sending.t].Done? && end.tasks[joiner.t].Done?;
    hide Start;
  }

  lemma SenderTurns(sys: System, t: Tid, m: Message, seen: set<ClientId>)
    requires m.channel in sys.stores.repo.byId && m.sender in sys.stores.clients.byId
    requires m.sender in sys.stores.repo.byId[m.channel].members && Text.CreateContent(m.content) == Ok(m.content)
    requires t in sys.tasks
    ensures sys.tasks[t] == Start(SendMessage(m.sender, m.channel, m.content, m.id, m.sentAt)) ==>
      BothTurns(sys, t) == System(sys.stores, sys.tasks[t :=
        Running(SaveMessage(m), Sent(m.id, sys.stores.repo.byId[m.channel].members))])
    ensures sys.tasks[t] == Running(SaveMessage(m), Sent(m.id, seen)) ==>
      BothTurns(sys, t) == System(sys.stores.(messages := sys.stores.messages.Save(m)),
                                  sys.tasks[t := Succeed(NewMessage(m.id, seen))])
  {
    SenderSteps(sys.stores, m, seen);
    SenderSteps(sys.stores.(messages := sys.stores.messages.Save(m)), m, seen);
    hide StepAlone; hide Start; hide Buffers.Save; hide RoomFinding; hide Text.CreateContent;
  }

  // A schedule on which the condition fails: the join is over before the message is
  // even saved, and yet the message does not go to the new member.
  lemma NewMemberIsPassedBy(s: Stores, sending: Sending, joiner: Mover, walk: seq<ChannelId>)
    requires MaySend(s, sending, joiner) && Waiting(s, joiner.client)
    requires joiner.client !in s.repo.byId[sending.message.channel].members
    ensures var m, was := sending.message, s.repo.byId[sending.message.channel].members;
      var joined := BothTurns(BothTurns(BothTurns(
                      SendAndJoin(s, sending, joiner, walk), sending.t), joiner.t), joiner.t);
      var end := BothTurns(joined, sending.t);
      && joined.tasks.Keys == {sending.t, joiner.t} && joined.tasks[joiner.t] == Succeed(Nothing)
      && joined.stores.messages == s.messages
      && joined.stores.repo.Find(m.channel) == Ok(s.repo.byId[m.channel].(members := was + {joiner.client}))
      && end.stores.messages == s.messages.Save(m)
      && end.tasks == joined.tasks[sending.t := Succeed(NewMessage(m.id, was))]
  {
    hide Move; hide Start; hide BothTurns; hide Buffers.Save; hide Text.CreateContent;
    var m := sending.message;
    var room, session := s.repo.byId[m.channel], s.clients.byId[joiner.client];
    var joined := room.(members := room.members + {joiner.client});
    var sys := SendAndJoin(s, sending, joiner, walk);
    SenderTurns(sys, sending.t, m, room.members);
    var a := BothTurns(sys, sending.t);
    ReadsRoom(a, joiner.t, joiner.client, m.channel, walk);
    var b := BothTurns(a, joiner.t);
    WritesCopy(b, joiner.t, session, joined);
    var c := BothTurns(b, joiner.t);
    SenderTurns(c, sending.t, m, room.members);
  }

  // ----- A heartbeat that comes too late -----

  ghost predicate OnlyClient(s: Stores, client: ClientId, deadline: int) {
    && s.clients.byId.Keys == {client} && s.clients.byId[client].id == client
    && s.clients.byId[client].joined == {} && s.clients.byId[client].lastHeartbeat < deadline
  }

  lemma CollectsOne(s: Stores, client: ClientId, deadline: int, order: seq<ClientId>, walks: Walks)
    requires OnlyClient(s, client, deadline)
    ensures Resume(ExpiredCollected(walks), ReplyTo(s, Op.CollectExpired(deadline, order)))
      == Running(RemoveSession(client), ExpiredRemoved([], walks))
  {
    var ids := InOrder(order, s.clients.Expired(deadline));
    assert s.clients.Expired(deadline) == {client};
    EnumeratesLength(ids, {client});
    assert ids[0] in Elems(ids) && ids == [client];
    var session := s.clients.byId[client];
    assert CopiesOfExpired(s.clients, deadline, order) == [session];
    EnumeratesLength(ChannelOrder(session, walks), {});
    assert [session][1..] == [];
    assert ExpireNextSession([session], walks) == ExpireNextChannel(session, [], [], walks);
  }

  // The heartbeat arrives after the sweep has collected its sessions. It is
  // answered with success, it is not before the deadline, and yet the client goes.
  lemma LateHeartbeatIsIgnored(s: Stores, client: ClientId, deadline: int, now: int, order: seq<ClientId>, walks: Walks)
    requires OnlyClient(s, client, deadline) && deadline <= now
    ensures var t, u := Tid(1), Tid(2);
      var sys := System(s, map[t := Start(Expire(deadline, order, walks)), u := Start(Heartbeat(client, now))]);
      var touched := Move(Move(sys, t), u);
      var end := Move(touched, t);
      && touched.tasks[u] == Succeed(Nothing) && client !in touched.stores.clients.Expired(deadline)
      && end.tasks[t] == Succeed(Nothing) && end.stores.clients.Find(client).Err?
  {
    CollectsOne(s, client, deadline, order, walks);
    hide CopiesOfExpired;
  }
}

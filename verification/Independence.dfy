/**
 Requests that share no client, username, channel or channel name do not feel
 each other: whatever the order in which their lock-protected sections are
 interleaved, the stores and the answers come out the same.
 */
module Independence {
  import opened Core
  import opened ChannelRepository
  import opened ClientRegistry
  import opened MessageRepository
  import opened UseCases
  import opened Sections
  import opened Tasks
  import Text

  // ----- What a task may touch -----

  ghost predicate NameWithin(name: string, f: Footprint) {
    var valid := Text.CreateChannelName(Text.Trim(name));
    valid.Some? ==> valid.value in f.names
  }

  ghost predicate AllWithin(channels: seq<ChannelId>, f: Footprint) {
    forall channel :: channel in channels ==> channel in f.channels
  }

  ghost predicate CallerWithin(caller: Caller, f: Footprint) {
    caller.ByDisconnect? ==> AllWithin(caller.rest, f)
  }

  ghost predicate RemoverWithin(remover: Remover, f: Footprint) {
    match remover
    case Leaving(caller) => CallerWithin(caller, f)
    case Joining(target, rest) => ChannelWithin(target, f) && AllWithin(rest, f)
    case Expiring(_, _, _) => false
  }

  // A sweep looks at every session and is never independent of anything.
  ghost predicate RequestWithin(request: Request, f: Footprint) {
    match request
    case Connect(name, newClient, _) =>
      var valid := Text.CreateUsername(Text.Trim(name));
      newClient in f.clients && (valid.Some? ==> valid.value in f.usernames)
    case Heartbeat(client, _) => client in f.clients
    case CreateChannel(client, name, newChannel) =>
      client in f.clients && newChannel in f.channels && NameWithin(name, f)
    case JoinChannel(client, channel, _) => client in f.clients && channel in f.channels
    case JoinChannelByName(client, name, _) => client in f.clients && NameWithin(name, f)
    case LeaveChannel(client, channel) => client in f.clients && channel in f.channels
    case SendMessage(client, channel, _, _, _) => client in f.clients && channel in f.channels
    case Disconnect(client, _) => client in f.clients
    case Expire(_, _, _) => false
  }

  ghost predicate FrameWithin(frame: Frame, f: Footprint) {
    match frame
    case CreatorFound(name, newChannel) => newChannel in f.channels && NameWithin(name, f)
    case JoinerFound(channel, _) => channel in f.channels
    case JoinerByNameFound(name, _) => NameWithin(name, f)
    case TargetFound(session, _) => SessionWithin(session, f)
    case MemberFound(session, channel, remover) =>
      SessionWithin(session, f) && channel in f.channels && RemoverWithin(remover, f)
    case MemberRemoved(session, channel, remover) =>
      SessionWithin(session, f) && channel in f.channels && RemoverWithin(remover, f)
    case OtherLeft(session, channel, target, rest) =>
      SessionWithin(session, f) && channel in f.channels && ChannelWithin(target, f) && AllWithin(rest, f)
    case OtherCounted(session, target, rest) =>
      SessionWithin(session, f) && ChannelWithin(target, f) && AllWithin(rest, f)
    case TargetSaved(session, target) => SessionWithin(session, f) && ChannelWithin(target, f)
    case LeaverFound(client, channel, caller) => client in f.clients && channel in f.channels && CallerWithin(caller, f)
    case Left(client, channel, caller) => client in f.clients && channel in f.channels && CallerWithin(caller, f)
    case LeftCounted(client, caller) => client in f.clients && CallerWithin(caller, f)
    case DisconnectingFound(client, _) => client in f.clients
    case SenderFound(client, channel, _, _, _) => client in f.clients && channel in f.channels
    case RoomFound(client, channel, _, _, _) => client in f.clients && channel in f.channels
    case ExpiredCollected(_) => false
    case ExpiredRemoved(_, _) => false
    case _ => true
  }

  ghost predicate TaskWithin(task: Task, f: Footprint) {
    task.Running? ==> OpWithin(task.op, f) && FrameWithin(task.frame, f)
  }

  lemma StartWithin(request: Request, f: Footprint)
    requires RequestWithin(request, f)
    ensures TaskWithin(Start(request), f)
  {
  }

  lemma OrderWithin(walk: seq<ChannelId>, channels: set<ChannelId>, f: Footprint)
    requires channels <= f.channels
    ensures AllWithin(InOrder(walk, channels), f)
  {
    var order := InOrder(walk, channels);
    assert forall channel :: channel in order ==> channel in Elems(order);
  }

  lemma EnterWithin(session: SessionRecord, target: ChannelRecord, others: seq<ChannelId>, f: Footprint)
    requires SessionWithin(session, f) && ChannelWithin(target, f) && AllWithin(others, f)
    ensures TaskWithin(LeaveOthersOrEnter(session, target, others), f)
  {
    if others != [] {
      assert others[0] in others && AllWithin(others[1..], f);
    }
  }

  lemma LeaveNextWithin(client: ClientId, channels: seq<ChannelId>, f: Footprint)
    requires client in f.clients && AllWithin(channels, f)
    ensures TaskWithin(LeaveNextOrRemove(client, channels), f)
  {
    if channels != [] {
      assert channels[0] in channels && AllWithin(channels[1..], f);
    }
  }

  lemma AfterLeaveWithin(client: ClientId, caller: Caller, result: Result<Unit>, f: Footprint)
    requires client in f.clients && CallerWithin(caller, f)
    ensures TaskWithin(AfterLeave(client, caller, result), f)
  {
    if caller.ByDisconnect? {
      LeaveNextWithin(client, caller.rest, f);
    }
  }

  lemma AfterRemoveWithin(session: SessionRecord, channel: ChannelId, remover: Remover, result: Result<Unit>,
                          f: Footprint)
    requires SessionWithin(session, f) && channel in f.channels && RemoverWithin(remover, f)
    ensures TaskWithin(AfterRemove(session, channel, remover, result), f)
  {
    if remover.Leaving? && result.Err? {
      AfterLeaveWithin(session.id, remover.caller, result, f);
    }
  }

  lemma OnSessionWithin(frame: Frame, session: SessionRecord, f: Footprint)
    requires FrameWithin(frame, f) && SessionWithin(session, f)
    ensures TaskWithin(OnSession(frame, session), f)
  {
    if frame.DisconnectingFound? {
      OrderWithin(frame.walk, session.joined, f);
      LeaveNextWithin(frame.client, InOrder(frame.walk, session.joined), f);
    }
  }

  lemma OnChannelWithin(frame: Frame, record: ChannelRecord, f: Footprint)
    requires FrameWithin(frame, f) && ChannelWithin(record, f)
    ensures TaskWithin(OnChannel(frame, record), f)
  {
    hide AfterRemove; hide LeaveOthersOrEnter; hide AfterLeave;
    match frame {
      case TargetFound(session, walk) =>
        OrderWithin(walk, session.joined - {record.id}, f);
        EnterWithin(session, record, InOrder(walk, session.joined - {record.id}), f);
      case MemberFound(session, channel, remover) => AfterRemoveWithin(session, channel, remover, Err(NotAMember), f);
      case OtherCounted(session, target, rest) => EnterWithin(session, target, rest, f);
      case LeftCounted(client, caller) => AfterLeaveWithin(client, caller, Ok(Unit), f);
      case _ =>
    }
  }

  lemma OnErrorWithin(frame: Frame, error: Error, f: Footprint)
    requires FrameWithin(frame, f)
    ensures TaskWithin(OnError(frame, error), f)
  {
    hide AfterRemove; hide LeaveOthersOrEnter; hide AfterLeave;
    match frame {
      case MemberFound(session, channel, remover) => AfterRemoveWithin(session, channel, remover, Err(error), f);
      case OtherCounted(session, target, rest) => EnterWithin(session, target, rest, f);
      case LeaverFound(client, _, caller) => AfterLeaveWithin(client, caller, Err(error), f);
      case LeftCounted(client, caller) => AfterLeaveWithin(client, caller, Err(error), f);
      case _ =>
    }
  }

  lemma OnUnitWithin(frame: Frame, done: Result<Unit>, f: Footprint)
    requires FrameWithin(frame, f)
    ensures TaskWithin(OnUnit(frame, done), f)
  {
    hide AfterRemove;
    if frame.MemberRemoved? {
      AfterRemoveWithin(frame.session, frame.channel, frame.remover, Ok(Unit), f);
    }
  }

  lemma ResumeWithin(frame: Frame, reply: Reply, f: Footprint)
    requires FrameWithin(frame, f) && ReplyWithin(reply, f)
    ensures TaskWithin(Resume(frame, reply), f)
  {
    hide TaskWithin; hide FrameWithin; hide OnSession; hide OnChannel; hide OnError; hide OnUnit;
    match reply {
      case ChannelReply(found) =>
        if found.Ok? { OnChannelWithin(frame, found.value, f); } else { OnErrorWithin(frame, found.error, f); }
      case SessionReply(session) =>
        if session.Ok? { OnSessionWithin(frame, session.value, f); } else { OnErrorWithin(frame, session.error, f); }
      case UnitReply(done) => OnUnitWithin(frame, done, f);
      case Expired(_) =>
    }
  }

  // ----- Any number of tasks, interleaved -----

  datatype System = System(stores: Stores, tasks: map<Tid, Task>)

  // Thread t runs its next section, if it has one.
  ghost function Move(sys: System, t: Tid): System {
    if t in sys.tasks then
      var a := StepAlone(Alone(sys.stores, sys.tasks[t]));
      System(a.stores, sys.tasks[t := a.task])
    else sys
  }

  ghost function After(sys: System, schedule: seq<Tid>): System {
    if schedule == [] then sys
    else Move(After(sys, schedule[..|schedule| - 1]), schedule[|schedule| - 1])
  }

  ghost predicate Complete(sys: System) {
    forall t :: t in sys.tasks ==> sys.tasks[t].Done?
  }

  // Every task keeps to a footprint of its own.
  ghost predicate Independent(sys: System, fps: map<Tid, Footprint>) {
    && sys.tasks.Keys == fps.Keys
    && (forall t :: t in fps ==> Closed(sys.stores, fps[t]) && TaskWithin(sys.tasks[t], fps[t]))
    && (forall t, u :: t in fps && u in fps && t != u ==> Disjoint(fps[t], fps[u]))
  }

  function Turns(schedule: seq<Tid>, t: Tid): nat {
    if schedule == [] then 0
    else Turns(schedule[..|schedule| - 1], t) + if schedule[|schedule| - 1] == t then 1 else 0
  }

  // Seen through its footprint, a task runs as if it were alone.
  ghost predicate AsIfAlone(now: System, t: Tid, f: Footprint, alone: Alone) {
    && t in now.tasks
    && Agree(now.stores, alone.stores, f)
    && Closed(now.stores, f)
    && now.tasks[t] == alone.task
    && TaskWithin(alone.task, f)
  }

  lemma StepTogether(now: System, t: Tid, f: Footprint, alone: Alone)
    requires AsIfAlone(now, t, f, alone)
    ensures AsIfAlone(Move(now, t), t, f, StepAlone(alone))
    ensures ChangedWithin(now.stores, Move(now, t).stores, f)
  {
    hide Agree; hide Closed; hide FrameWithin; hide OpWithin; hide ReplyTo; hide Sections.StoresAfter; hide Resume;
    if now.tasks[t].Running? {
      var op, frame := now.tasks[t].op, now.tasks[t].frame;
      OpIsLocal(now.stores, alone.stores, op, f);
      OpKeepsClosed(now.stores, op, f);
      OpChangesWithin(now.stores, op, f);
      ResumeWithin(frame, ReplyTo(now.stores, op), f);
    } else {
      NothingChanged(now.stores, f);
    }
  }

  lemma NothingChanged(s: Stores, f: Footprint)
    ensures ChangedWithin(s, s, f)
  {
  }

  lemma SameElsewhere<K(!new), V>(m: map<K, V>, n: map<K, V>, alone: map<K, V>, changed: set<K>, keys: set<K>)
    requires SameOutside(m, n, changed) && changed !! keys
    ensures Same(m, n, keys)
    ensures Same(m, alone, keys) ==> Same(n, alone, keys)
  {
  }

  // A change inside a disjoint footprint is not seen.
  lemma OthersDoNotMatter(s: Stores, t: Stores, alone: Stores, g: Footprint, f: Footprint)
    requires ChangedWithin(s, t, g) && Disjoint(g, f)
    requires Agree(s, alone, f) && Closed(s, f)
    ensures Agree(t, alone, f) && Closed(t, f)
  {
    SameElsewhere(s.repo.byId, t.repo.byId, alone.repo.byId, g.channels, f.channels);
    SameElsewhere(s.repo.idOf, t.repo.idOf, alone.repo.idOf, g.names, f.names);
    SameElsewhere(s.clients.byId, t.clients.byId, alone.clients.byId, g.clients, f.clients);
    SameElsewhere(s.clients.idOf, t.clients.idOf, alone.clients.idOf, g.usernames, f.usernames);
    SameElsewhere(s.clients.historical, t.clients.historical, alone.clients.historical, g.clients, f.clients);
    SameElsewhere(s.messages.byChannel, t.messages.byChannel, alone.messages.byChannel, g.channels, f.channels);
  }

  lemma {:induction false} EachAsIfAlone(sys: System, fps: map<Tid, Footprint>, schedule: seq<Tid>, t: Tid)
    requires Independent(sys, fps) && t in fps
    ensures After(sys, schedule).tasks.Keys == fps.Keys
    ensures AsIfAlone(After(sys, schedule), t, fps[t], RunAlone(Alone(sys.stores, sys.tasks[t]), Turns(schedule, t)))
  {
    hide Closed; hide TaskWithin; hide StepAlone; hide Disjoint; hide Agree;
    if schedule == [] {
      SameAsItself(sys.stores, fps[t]);
    } else {
      var before, u := schedule[..|schedule| - 1], schedule[|schedule| - 1];
      EachAsIfAlone(sys, fps, before, t);
      var was := After(sys, before);
      var alone := RunAlone(Alone(sys.stores, sys.tasks[t]), Turns(before, t));
      if u == t {
        StepTogether(was, t, fps[t], alone);
      } else if u in fps {
        EachAsIfAlone(sys, fps, before, u);
        StepTogether(was, u, fps[u], RunAlone(Alone(sys.stores, sys.tasks[u]), Turns(before, u)));
        OthersDoNotMatter(was.stores, Move(was, u).stores, alone.stores, fps[u], fps[t]);
      }
    }
  }

  lemma SameAsItself(s: Stores, f: Footprint)
    ensures Agree(s, s, f)
  {
  }

  // ----- The outcome does not depend on the schedule -----

  // f belongs to none of the tasks.
  ghost predicate NotIn(fps: map<Tid, Footprint>, f: Footprint) {
    forall t :: t in fps ==> Disjoint(fps[t], f)
  }

  lemma {:induction false} TasksStay(sys: System, schedule: seq<Tid>)
    ensures After(sys, schedule).tasks.Keys == sys.tasks.Keys
  {
    if schedule != [] {
      TasksStay(sys, schedule[..|schedule| - 1]);
    }
  }

  lemma {:induction false} UntouchedElsewhere(sys: System, fps: map<Tid, Footprint>, schedule: seq<Tid>, f: Footprint)
    requires Independent(sys, fps) && NotIn(fps, f)
    ensures Agree(sys.stores, After(sys, schedule).stores, f)
  {
    hide Closed; hide TaskWithin; hide StepAlone; hide Disjoint; hide Agree; hide AsIfAlone;
    if schedule == [] {
      SameAsItself(sys.stores, f);
    } else {
      var before, u := schedule[..|schedule| - 1], schedule[|schedule| - 1];
      UntouchedElsewhere(sys, fps, before, f);
      TasksStay(sys, before);
      if u in fps {
        EachAsIfAlone(sys, fps, before, u);
        StepTogether(After(sys, before), u, fps[u], RunAlone(Alone(sys.stores, sys.tasks[u]), Turns(before, u)));
        StillAgrees(sys.stores, After(sys, before).stores, After(sys, schedule).stores, fps[u], f);
      }
    }
  }

  lemma StillAgrees(s: Stores, t: Stores, u: Stores, g: Footprint, f: Footprint)
    requires Agree(s, t, f) && ChangedWithin(t, u, g) && Disjoint(g, f)
    ensures Agree(s, u, f)
  {
    SameElsewhere(t.repo.byId, u.repo.byId, s.repo.byId, g.channels, f.channels);
    SameElsewhere(t.repo.idOf, u.repo.idOf, s.repo.idOf, g.names, f.names);
    SameElsewhere(t.clients.byId, u.clients.byId, s.clients.byId, g.clients, f.clients);
    SameElsewhere(t.clients.idOf, u.clients.idOf, s.clients.idOf, g.usernames, f.usernames);
    SameElsewhere(t.clients.historical, u.clients.historical, s.clients.historical, g.clients, f.clients);
    SameElsewhere(t.messages.byChannel, u.messages.byChannel, s.messages.byChannel, g.channels, f.channels);
  }

  // Two runs of the same task that both reach its end reach the same end.
  lemma BothDone(a: Alone, m: nat, n: nat)
    requires RunAlone(a, m).task.Done? && RunAlone(a, n).task.Done?
    ensures RunAlone(a, m) == RunAlone(a, n)
  {
    hide StepAlone;
    var lo, hi := if m <= n then m else n, if m <= n then n else m;
    RunAloneAdds(a, lo, hi - lo);
    DoneStaysDone(RunAlone(a, lo), hi - lo);
  }

  lemma AgreeThrough(s: Stores, t: Stores, alone: Stores, f: Footprint)
    requires Agree(s, alone, f) && Agree(t, alone, f)
    ensures Agree(s, t, f)
  {
  }

  lemma SameForEach(sys: System, fps: map<Tid, Footprint>, one: seq<Tid>, two: seq<Tid>, t: Tid)
    requires Independent(sys, fps) && t in fps
    requires Complete(After(sys, one)) && Complete(After(sys, two))
    ensures t in After(sys, one).tasks && t in After(sys, two).tasks
    ensures After(sys, one).tasks[t] == After(sys, two).tasks[t]
    ensures Agree(After(sys, one).stores, After(sys, two).stores, fps[t])
  {
    hide Closed; hide TaskWithin; hide Agree; hide After; hide RunAlone;
    EachAsIfAlone(sys, fps, one, t);
    EachAsIfAlone(sys, fps, two, t);
    var a := Alone(sys.stores, sys.tasks[t]);
    BothDone(a, Turns(one, t), Turns(two, t));
    AgreeThrough(After(sys, one).stores, After(sys, two).stores, RunAlone(a, Turns(one, t)).stores, fps[t]);
  }

  ghost predicate Part(f: Footprint, g: Footprint) {
    f.clients <= g.clients && f.usernames <= g.usernames && f.channels <= g.channels && f.names <= g.names
  }

  lemma SameOnPart(sys: System, fps: map<Tid, Footprint>, one: seq<Tid>, two: seq<Tid>, f: Footprint)
    requires Independent(sys, fps)
    requires Complete(After(sys, one)) && Complete(After(sys, two))
    requires NotIn(fps, f) || exists t :: t in fps && Part(f, fps[t])
    ensures Agree(After(sys, one).stores, After(sys, two).stores, f)
  {
    hide After; hide Independent; hide Complete;
    if NotIn(fps, f) {
      UntouchedElsewhere(sys, fps, one, f);
      UntouchedElsewhere(sys, fps, two, f);
    } else {
      var t :| t in fps && Part(f, fps[t]);
      SameForEach(sys, fps, one, two, t);
    }
  }

  ghost predicate OneKey(f: Footprint) {
    |f.clients| + |f.usernames| + |f.channels| + |f.names| <= 1
  }

  lemma AtMostOne<T>(s: set<T>, g: set<T>)
    requires |s| <= 1
    ensures g !! s || (s <= g && |s| == 1)
    ensures |s| == 0 ==> s <= g
  {
    if x :| x in s && x in g {
      assert |s - {x}| == 0;
      assert s == {x};
    }
  }

  lemma InOneOrNone(fps: map<Tid, Footprint>, f: Footprint)
    requires OneKey(f)
    ensures NotIn(fps, f) || exists t :: t in fps && Part(f, fps[t])
  {
    if !NotIn(fps, f) {
      var t :| t in fps && !Disjoint(fps[t], f);
      AtMostOne(f.clients, fps[t].clients);
      AtMostOne(f.usernames, fps[t].usernames);
      AtMostOne(f.channels, fps[t].channels);
      AtMostOne(f.names, fps[t].names);
      assert Part(f, fps[t]);
    }
  }

  lemma SameStores(sys: System, fps: map<Tid, Footprint>, one: seq<Tid>, two: seq<Tid>)
    requires Independent(sys, fps)
    requires Complete(After(sys, one)) && Complete(After(sys, two))
    ensures After(sys, one).stores == After(sys, two).stores
  {
    hide After; hide Independent; hide Complete; hide Agree; hide NotIn;
    forall f: Footprint | OneKey(f) ensures NotIn(fps, f) || exists t :: t in fps && Part(f, fps[t]) {
      InOneOrNone(fps, f);
    }
    var s, t := After(sys, one).stores, After(sys, two).stores;
    SameOnPart(sys, fps, one, two, Footprint({}, {}, {}, {}));
    forall k: ClientId ensures Agree(s, t, Footprint({k}, {}, {}, {})) {
      SameOnPart(sys, fps, one, two, Footprint({k}, {}, {}, {}));
    }
    forall k: Username ensures Agree(s, t, Footprint({}, {k}, {}, {})) {
      SameOnPart(sys, fps, one, two, Footprint({}, {k}, {}, {}));
    }
    forall k: ChannelId ensures Agree(s, t, Footprint({}, {}, {k}, {})) {
      SameOnPart(sys, fps, one, two, Footprint({}, {}, {k}, {}));
    }
    forall k: ChannelName ensures Agree(s, t, Footprint({}, {}, {}, {k})) {
      SameOnPart(sys, fps, one, two, Footprint({}, {}, {}, {k}));
    }
    EqualKeyByKey(s, t);
  }

  // Whatever two complete schedules do, they end with equal stores and equal answers.
  lemma ScheduleDoesNotMatter(sys: System, fps: map<Tid, Footprint>, one: seq<Tid>, two: seq<Tid>)
    requires Independent(sys, fps)
    requires Complete(After(sys, one)) && Complete(After(sys, two))
    ensures After(sys, one) == After(sys, two)
  {
    hide After; hide Complete; hide Agree;
    SameStores(sys, fps, one, two);
    TasksStay(sys, one);
    TasksStay(sys, two);
    forall u | u in fps ensures After(sys, one).tasks[u] == After(sys, two).tasks[u] {
      SameForEach(sys, fps, one, two, u);
    }
  }

  lemma EqualKeyByKey(s: Stores, t: Stores)
    requires forall k: ClientId :: Agree(s, t, Footprint({k}, {}, {}, {}))
    requires forall k: Username :: Agree(s, t, Footprint({}, {k}, {}, {}))
    requires forall k: ChannelId :: Agree(s, t, Footprint({}, {}, {k}, {}))
    requires forall k: ChannelName :: Agree(s, t, Footprint({}, {}, {}, {k}))
    requires Agree(s, t, Footprint({}, {}, {}, {}))
    ensures s == t
  {
    SameMaps(s.repo.byId, t.repo.byId);
    SameMaps(s.repo.idOf, t.repo.idOf);
    SameMaps(s.clients.byId, t.clients.byId);
    SameMaps(s.clients.idOf, t.clients.idOf);
    SameMaps(s.clients.historical, t.clients.historical);
    SameMaps(s.messages.byChannel, t.messages.byChannel);
  }

  lemma SameMaps<K(!new), V>(m: map<K, V>, n: map<K, V>)
    requires forall k :: Same(m, n, {k})
    ensures m == n
  {
    assert forall k :: k in m ==> Same(m, n, {k});
    assert forall k :: k in n ==> Same(m, n, {k});
  }
}

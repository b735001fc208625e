/**
 What survives every interleaving of lock-protected sections, although tasks
 write back copies of channels that were read earlier: requests of every kind
 arrive at any time, and any number of tasks take turns section by section.
 */
module Interleaving {
  import opened Core
  import opened ChannelRepository
  import opened ClientRegistry
  import opened UseCases
  import opened Sections
  import opened Tasks

  // clock is the latest reading of the monotone clock.
  datatype State = State(stores: Stores, tasks: map<Tid, Task>, clock: int)

  datatype Action = Arrive(t: Tid, request: Request) | Turn(t: Tid)

  // Generated ids are fresh, and the clock is read inside the section.
  ghost predicate Permitted(s: State, op: Op) {
    && (op.MakeChannel? ==> op.newChannel !in s.stores.repo.byId)
    && (op.Register? ==> FreshClient(s.stores.clients, op.newClient) && op.now >= s.clock)
    && (op.Touch? ==> op.now >= s.clock)
  }

  ghost predicate Enabled(s: State, a: Action) {
    if a.Arrive? then a.t !in s.tasks
    else a.t in s.tasks && s.tasks[a.t].Running? && Permitted(s, s.tasks[a.t].op)
  }

  function ClockAfter(clock: int, op: Op): int {
    if op.Register? || op.Touch? then op.now else clock
  }

  ghost function Apply(s: State, a: Action): State
    requires Enabled(s, a)
  {
    match a
    case Arrive(t, request) => s.(tasks := s.tasks[t := Start(request)])
    case Turn(t) =>
      var op := s.tasks[t].op;
      State(Sections.StoresAfter(s.stores, op),
            s.tasks[t := Resume(s.tasks[t].frame, ReplyTo(s.stores, op))],
            ClockAfter(s.clock, op))
  }

  ghost predicate Initial(s: State) {
    s.stores.repo.Inv() && s.stores.clients == EMPTY_REGISTRY && s.tasks == map[]
  }

  ghost predicate Run(states: seq<State>, actions: seq<Action>) {
    && |states| == |actions| + 1
    && Initial(states[0])
    && forall i :: 0 <= i < |actions| ==>
         Enabled(states[i], actions[i]) && states[i + 1] == Apply(states[i], actions[i])
  }

  // ----- The copies of channels that tasks hold -----

  // However old the copy, the stored channel still has its name.
  ghost predicate Named(record: ChannelRecord, repo: Repo) {
    record.id in repo.byId && repo.byId[record.id].name == record.name
  }

  ghost predicate RemoverNamed(remover: Remover, repo: Repo) {
    remover.Joining? ==> Named(remover.target, repo)
  }

  ghost predicate FrameNamed(frame: Frame, repo: Repo) {
    match frame
    case MemberFound(_, _, remover) => RemoverNamed(remover, repo)
    case MemberRemoved(_, _, remover) => RemoverNamed(remover, repo)
    case OtherLeft(_, _, target, _) => Named(target, repo)
    case OtherCounted(_, target, _) => Named(target, repo)
    case TargetSaved(_, target) => Named(target, repo)
    case _ => true
  }

  ghost predicate TaskNamed(task: Task, repo: Repo) {
    task.Running? ==> (task.op.SaveChannel? ==> Named(task.op.record, repo)) && FrameNamed(task.frame, repo)
  }

  lemma StillNamed(task: Task, repo: Repo, later: Repo)
    requires TaskNamed(task, repo) && repo.KeptBy(later)
    ensures TaskNamed(task, later)
  {
  }

  lemma AfterRemoveNamed(session: SessionRecord, channel: ChannelId, remover: Remover, result: Result<Unit>, repo: Repo)
    requires RemoverNamed(remover, repo)
    ensures TaskNamed(AfterRemove(session, channel, remover, result), repo)
  {
  }

  lemma OnChannelNamed(frame: Frame, record: ChannelRecord, repo: Repo)
    requires FrameNamed(frame, repo) && Named(record, repo)
    ensures TaskNamed(OnChannel(frame, record), repo)
  {
    hide AfterRemove;
    if frame.MemberFound? {
      AfterRemoveNamed(frame.session, frame.channel, frame.remover, Err(NotAMember), repo);
    }
  }

  lemma OnErrorNamed(frame: Frame, error: Error, repo: Repo)
    requires FrameNamed(frame, repo)
    ensures TaskNamed(OnError(frame, error), repo)
  {
    hide AfterRemove;
    if frame.MemberFound? {
      AfterRemoveNamed(frame.session, frame.channel, frame.remover, Err(error), repo);
    }
  }

  lemma OnUnitNamed(frame: Frame, done: Result<Unit>, repo: Repo)
    requires FrameNamed(frame, repo)
    ensures TaskNamed(OnUnit(frame, done), repo)
  {
    hide AfterRemove;
    if frame.MemberRemoved? {
      AfterRemoveNamed(frame.session, frame.channel, frame.remover, Ok(Unit), repo);
    }
  }

  lemma OnSessionNamed(frame: Frame, session: SessionRecord, repo: Repo)
    ensures TaskNamed(OnSession(frame, session), repo)
  {
  }

  lemma ExpireNamed(sessions: seq<SessionRecord>, walks: Walks, repo: Repo)
    ensures TaskNamed(ExpireNextSession(sessions, walks), repo)
  {
  }

  lemma ResumeNamed(frame: Frame, reply: Reply, repo: Repo)
    requires FrameNamed(frame, repo)
    requires reply.ChannelReply? && reply.found.Ok? ==> Named(reply.found.value, repo)
    ensures TaskNamed(Resume(frame, reply), repo)
  {
    hide FrameNamed; hide TaskNamed; hide OnSession; hide OnChannel; hide OnError; hide OnUnit; hide ExpireNextSession;
    match reply {
      case ChannelReply(found) =>
        if found.Ok? { OnChannelNamed(frame, found.value, repo); } else { OnErrorNamed(frame, found.error, repo); }
      case SessionReply(session) =>
        if session.Ok? {
          OnSessionNamed(frame, session.value, repo);
        } else {
          OnErrorNamed(frame, session.error, repo);
        }
      case UnitReply(done) => OnUnitNamed(frame, done, repo);
      case Expired(sessions) =>
        ExpireNamed(sessions, if frame.ExpiredCollected? then frame.walks else map[], repo);
    }
  }

  // ----- The invariant -----

  ghost predicate HeartbeatsBy(clients: Registry, clock: int) {
    forall id :: id in clients.byId ==> clients.byId[id].lastHeartbeat <= clock
  }

  ghost predicate TasksNamed(tasks: map<Tid, Task>, repo: Repo) {
    forall t :: t in tasks ==> TaskNamed(tasks[t], repo)
  }

  ghost predicate Inv(s: State) {
    && s.stores.repo.Inv() && s.stores.clients.Inv()
    && TasksNamed(s.tasks, s.stores.repo)
    && HeartbeatsBy(s.stores.clients, s.clock)
  }

  lemma OpKeepsRepo(repo: Repo, op: Op)
    requires repo.Inv()
    requires op.SaveChannel? ==> Named(op.record, repo)
    requires op.MakeChannel? ==> op.newChannel !in repo.byId
    ensures RepoAfter(repo, op).Inv() && repo.KeptBy(RepoAfter(repo, op))
  {
    if op.SaveChannel? {
      SaveKeepsIndexExact(repo, op.record);
    }
    if op.MakeChannel? {
      CreateKeepsIndexExact(repo, op.name, op.newChannel);
    }
  }

  // Names stay on record, ids are not used twice, and no live session's heartbeat
  // goes back.
  ghost predicate ClientsFollow(was: Registry, now: Registry) {
    && (forall id :: id in was.historical ==> id in now.historical)
    && (forall id :: id in now.byId && id !in was.byId ==> id !in was.historical)
    && (forall id :: id in was.byId && id in now.byId ==> was.byId[id].lastHeartbeat <= now.byId[id].lastHeartbeat)
  }

  // What an operation at time now must see to.
  ghost predicate Sound(was: Registry, now: Registry, clock: int) {
    now.Inv() && HeartbeatsBy(now, clock) && ClientsFollow(was, now)
  }

  lemma RegisterIsSound(clients: Registry, clock: int, username: Username, newId: ClientId, now: int)
    requires clients.Inv() && HeartbeatsBy(clients, clock) && FreshClient(clients, newId) && now >= clock
    ensures Sound(clients, clients.Register(username, newId, now).0, now)
  {
    RegisterKeepsIndexExact(clients, username, newId, now);
  }

  lemma RemoveIsSound(clients: Registry, clock: int, id: ClientId)
    requires clients.Inv() && HeartbeatsBy(clients, clock)
    ensures Sound(clients, clients.Remove(id).0, clock)
  {
    RemoveKeepsIndexExact(clients, id);
    hide Registry.Inv;
  }

  // A session may be replaced by one with the same id and username and no earlier heartbeat.
  lemma UpdateIsSound(clients: Registry, clock: int, id: ClientId, session: SessionRecord)
    requires clients.Inv() && HeartbeatsBy(clients, clock) && id in clients.byId
    requires session.id == id && session.username == clients.byId[id].username
    requires clients.byId[id].lastHeartbeat <= session.lastHeartbeat <= clock
    ensures Sound(clients, clients.With(id, session), clock)
  {
  }

  lemma OpKeepsClients(clients: Registry, clock: int, op: Op)
    requires clients.Inv() && HeartbeatsBy(clients, clock)
    requires op.Register? ==> FreshClient(clients, op.newClient) && op.now >= clock
    requires op.Touch? ==> op.now >= clock
    ensures Sound(clients, ClientsAfter(clients, op), ClockAfter(clock, op))
  {
    if op.Register? {
      RegisterIsSound(clients, clock, op.username, op.newClient, op.now);
      hide Sound; hide Registry.Inv;
    } else if op.RemoveSession? {
      RemoveIsSound(clients, clock, op.client);
      hide Sound; hide Registry.Inv;
    } else if (op.Touch? || op.JoinAtomic? || op.LeaveAtomic?) && op.client in clients.byId {
      ByIdKeyed(clients, op.client);
      UpdateIsSound(clients, ClockAfter(clock, op), op.client, ClientsAfter(clients, op).byId[op.client]);
      hide Sound; hide Registry.Inv;
    }
  }

  lemma ByIdKeyed(clients: Registry, id: ClientId)
    requires clients.Inv() && id in clients.byId
    ensures clients.byId[id].id == id
  {
  }

  lemma StartNamed(request: Request, repo: Repo)
    ensures TaskNamed(Start(request), repo)
  {
  }

  lemma ReplyNamed(s: Stores, op: Op)
    requires s.repo.Inv() && (op.MakeChannel? ==> op.newChannel !in s.repo.byId)
    ensures var reply := ReplyTo(s, op);
      reply.ChannelReply? && reply.found.Ok? ==> Named(reply.found.value, RepoAfter(s.repo, op))
  {
  }

  lemma StepKeepsInv(s: State, a: Action)
    requires Inv(s) && Enabled(s, a)
    ensures Inv(Apply(s, a))
    ensures s.stores.repo.KeptBy(Apply(s, a).stores.repo)
    ensures ClientsFollow(s.stores.clients, Apply(s, a).stores.clients)
  {
    hide TaskNamed; hide Repo.Inv; hide Registry.Inv; hide HeartbeatsBy; hide RepoAfter; hide ClientsAfter;
    hide Start; hide Resume; hide ReplyTo;
    match a {
      case Arrive(t, request) => StartNamed(request, s.stores.repo);
      case Turn(t) =>
        var task := s.tasks[t];
        TaskNamedParts(task, s.stores.repo);
        OpKeepsRepo(s.stores.repo, task.op);
        OpKeepsClients(s.stores.clients, s.clock, task.op);
        ReplyNamed(s.stores, task.op);
        forall u | u in s.tasks ensures TaskNamed(s.tasks[u], Apply(s, a).stores.repo) {
          StillNamed(s.tasks[u], s.stores.repo, Apply(s, a).stores.repo);
        }
        TaskNamedParts(task, Apply(s, a).stores.repo);
        ResumeNamed(task.frame, ReplyTo(s.stores, task.op), Apply(s, a).stores.repo);
    }
  }

  lemma TaskNamedParts(task: Task, repo: Repo)
    requires TaskNamed(task, repo) && task.Running?
    ensures task.op.SaveChannel? ==> Named(task.op.record, repo)
    ensures FrameNamed(task.frame, repo)
  {
  }

  lemma RunStep(states: seq<State>, actions: seq<Action>, k: nat)
    requires Run(states, actions) && k + 1 < |states|
    ensures k < |actions| && Enabled(states[k], actions[k]) && states[k + 1] == Apply(states[k], actions[k])
  {
    hide Apply; hide Enabled; hide Initial;
  }

  lemma {:induction false} RunKeepsInv(states: seq<State>, actions: seq<Action>, n: nat)
    requires Run(states, actions) && n < |states|
    ensures Inv(states[n])
    decreases n
  {
    if n > 0 {
      RunStep(states, actions, n - 1);
      hide *;
      RunKeepsInv(states, actions, n - 1);
      StepKeepsInv(states[n - 1], actions[n - 1]);
    }
  }

  // ----- What every run guarantees -----

  // A channel is found by its name exactly when it is stored under that name, and
  // a live client by its username.
  lemma IndexesStayExact(states: seq<State>, actions: seq<Action>, n: nat, name: ChannelName, id: ChannelId,
                         username: Username, client: ClientId)
    requires Run(states, actions) && n < |states|
    ensures var repo := states[n].stores.repo;
      name in repo.idOf && repo.idOf[name] == id <==> id in repo.byId && repo.byId[id].name == name
    ensures var clients := states[n].stores.clients;
      (username in clients.idOf && clients.idOf[username] == client
       <==> client in clients.byId && clients.byId[client].username == username)
  {
    RunKeepsInv(states, actions, n);
  }

  lemma KeptAtOnce(r: Repo)
    ensures r.KeptBy(r)
  {
  }

  lemma KeptThrough(r: Repo, q: Repo, p: Repo)
    requires r.KeptBy(q) && q.KeptBy(p)
    ensures r.KeptBy(p)
  {
  }

  // No channel is ever lost or renamed.
  lemma {:induction false} ChannelsStay(states: seq<State>, actions: seq<Action>, i: nat, j: nat)
    requires Run(states, actions) && i <= j < |states|
    ensures states[i].stores.repo.KeptBy(states[j].stores.repo)
    decreases j
  {
    hide *;
    if i < j {
      RunStep(states, actions, j - 1);
      ChannelsStay(states, actions, i, j - 1);
      RunKeepsInv(states, actions, j - 1);
      StepKeepsInv(states[j - 1], actions[j - 1]);
      KeptThrough(states[i].stores.repo, states[j - 1].stores.repo, states[j].stores.repo);
    } else {
      KeptAtOnce(states[i].stores.repo);
    }
  }

  // A client that ever registered stays on record; it is live later only if it
  // was live all along, and then its heartbeat has not gone backwards.
  ghost predicate NeverBack(was: Registry, now: Registry, id: ClientId) {
    id in was.historical ==>
      && id in now.historical
      && (id in now.byId ==> id in was.byId && was.byId[id].lastHeartbeat <= now.byId[id].lastHeartbeat)
  }

  lemma NeverBackAtOnce(s: State, id: ClientId)
    requires Inv(s)
    ensures NeverBack(s.stores.clients, s.stores.clients, id)
  {
  }

  lemma NeverBackThrough(was: Registry, mid: Registry, now: Registry, id: ClientId)
    requires NeverBack(was, mid, id) && ClientsFollow(mid, now)
    ensures NeverBack(was, now, id)
  {
  }

  lemma {:induction false} HeartbeatsNeverGoBack(states: seq<State>, actions: seq<Action>, i: nat, j: nat, id: ClientId)
    requires Run(states, actions) && i <= j < |states|
    ensures NeverBack(states[i].stores.clients, states[j].stores.clients, id)
    decreases j
  {
    hide *;
    RunKeepsInv(states, actions, i);
    if i < j {
      RunStep(states, actions, j - 1);
      HeartbeatsNeverGoBack(states, actions, i, j - 1, id);
      RunKeepsInv(states, actions, j - 1);
      StepKeepsInv(states[j - 1], actions[j - 1]);
      NeverBackThrough(states[i].stores.clients, states[j - 1].stores.clients, states[j].stores.clients, id);
    } else {
      NeverBackAtOnce(states[i], id);
    }
  }
}

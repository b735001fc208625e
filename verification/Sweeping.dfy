/**
 A sweep among other requests: it collects copies of the expired sessions in one
 section and removes them one by one in later ones, and whatever happens to a
 session in between makes no difference to it.
 */
module Sweeping {
  import opened Core
  import opened ClientRegistry
  import opened UseCases
  import opened Sections
  import opened Tasks
  import opened Interleaving

  function IdsOf(sessions: seq<SessionRecord>): (ids: seq<ClientId>)
    ensures |ids| == |sessions|
  {
    seq(|sessions|, i requires 0 <= i < |sessions| => sessions[i].id)
  }

  // A sweep past its first section.
  ghost predicate Removing(task: Task) {
    task.Done? ||
    match task.frame
    case MemberFound(_, _, remover) => remover.Expiring? && task.op.FindChannel?
    case MemberRemoved(_, _, remover) => remover.Expiring? && task.op.SaveChannel?
    case ExpiredRemoved(_, _) => task.op.RemoveSession?
    case _ => false
  }

  // The sessions that it has yet to remove, the one at hand first.
  function Pending(task: Task): seq<ClientId> {
    if task.Done? then []
    else
      match task.frame
      case MemberFound(session, _, Expiring(_, sessions, _)) => [session.id] + IdsOf(sessions)
      case MemberRemoved(session, _, Expiring(_, sessions, _)) => [session.id] + IdsOf(sessions)
      case ExpiredRemoved(sessions, _) =>
        (if task.op.RemoveSession? then [task.op.client] else []) + IdsOf(sessions)
      case _ => []
  }

  lemma NextSessionPending(sessions: seq<SessionRecord>, walks: Walks)
    ensures Removing(ExpireNextSession(sessions, walks))
    ensures Pending(ExpireNextSession(sessions, walks)) == IdsOf(sessions)
  {
    if sessions != [] {
      assert IdsOf(sessions) == [sessions[0].id] + IdsOf(sessions[1..]);
    }
  }

  lemma NextChannelPending(session: SessionRecord, channels: seq<ChannelId>, sessions: seq<SessionRecord>, walks: Walks)
    ensures Removing(ExpireNextChannel(session, channels, sessions, walks))
    ensures Pending(ExpireNextChannel(session, channels, sessions, walks)) == [session.id] + IdsOf(sessions)
  {
  }

  lemma ResumedRemoval(s: Stores, task: Task)
    requires task.Running? && Removing(task)
    ensures var next := Resume(task.frame, ReplyTo(s, task.op));
      match task.frame
      case ExpiredRemoved(sessions, walks) => next == ExpireNextSession(sessions, walks)
      case MemberFound(session, channel, remover) =>
        || next == ExpireNextChannel(session, remover.channels, remover.sessions, remover.walks)
        || (next.Running? && next.frame == MemberRemoved(session, channel, remover) && next.op.SaveChannel?)
      case MemberRemoved(session, _, remover) =>
        next == ExpireNextChannel(session, remover.channels, remover.sessions, remover.walks)
      case _ => false
  {
    hide ExpireNextSession; hide ExpireNextChannel; hide Registry.Remove;
  }

  // One section of the sweep: only a removal takes an id off the list.
  lemma SweepStep(s: Stores, task: Task)
    requires task.Running? && Removing(task)
    ensures var next := Resume(task.frame, ReplyTo(s, task.op));
      && Removing(next)
      && Pending(task) == (if task.op.RemoveSession? then [task.op.client] else []) + Pending(next)
  {
    ResumedRemoval(s, task);
    hide Resume; hide ReplyTo; hide ExpireNextSession; hide ExpireNextChannel;
    if task.frame.ExpiredRemoved? {
      NextSessionPending(task.frame.sessions, task.frame.walks);
    } else {
      var remover := task.frame.remover;
      NextChannelPending(task.frame.session, remover.channels, remover.sessions, remover.walks);
    }
  }

  lemma IdsOfCopies(clients: Registry, ids: seq<ClientId>)
    requires clients.Inv() && forall id :: id in ids ==> id in clients.byId
    ensures IdsOf(Copies(clients, ids)) == ids
  {
    forall i | 0 <= i < |ids| ensures Copies(clients, ids)[i].id == ids[i] {
      assert ids[i] in ids;
    }
  }

  // The collecting section.
  lemma CollectStep(s: Stores, deadline: int, order: seq<ClientId>, walks: Walks)
    requires s.clients.Inv()
    ensures var next := Resume(ExpiredCollected(walks), ReplyTo(s, Op.CollectExpired(deadline, order)));
      && Removing(next) && Enumerates(Pending(next), s.clients.Expired(deadline))
  {
    var ids := InOrder(order, s.clients.Expired(deadline));
    assert forall id :: id in ids ==> id in Elems(ids);
    IdsOfCopies(s.clients, ids);
    NextSessionPending(CopiesOfExpired(s.clients, deadline, order), walks);
    hide Copies; hide IdsOf; hide ExpireNextSession; hide Pending; hide Removing; hide Registry.Inv;
  }

  // ----- In a run -----

  // At step c the sweep t collects the sessions past the deadline.
  ghost predicate CollectsAt(states: seq<State>, actions: seq<Action>, c: nat, t: Tid, deadline: int) {
    && c < |actions| < |states| && actions[c] == Turn(t) && t in states[c].tasks
    && var task := states[c].tasks[t];
       task.Running? && task.op.CollectExpired? && task.op.deadline == deadline && task.frame.ExpiredCollected?
  }

  // At step r it runs the section that removes the client's session.
  ghost predicate RemovesAt(states: seq<State>, actions: seq<Action>, r: nat, t: Tid, id: ClientId) {
    && r < |actions| < |states| && actions[r] == Turn(t) && t in states[r].tasks
    && states[r].tasks[t].Running? && states[r].tasks[t].op == RemoveSession(id)
  }

  ghost predicate NoRemoval(states: seq<State>, actions: seq<Action>, c: nat, n: nat, t: Tid, id: ClientId) {
    forall r :: c < r < n ==> !RemovesAt(states, actions, r, t, id)
  }

  ghost predicate OneRemoval(states: seq<State>, actions: seq<Action>, c: nat, n: nat, t: Tid, id: ClientId) {
    exists r :: c < r < n && RemovesAt(states, actions, r, t, id)
                && forall q :: c < q < n && RemovesAt(states, actions, q, t, id) ==> q == r
  }

  // What the sweep has done with one client by step n, if it has yet to remove the pending ones.
  ghost predicate Progress(states: seq<State>, actions: seq<Action>, c: nat, n: nat, t: Tid, id: ClientId,
                           pending: seq<ClientId>, collected: set<ClientId>)
  {
    && NoDup(pending)
    && if id !in collected then id !in pending && NoRemoval(states, actions, c, n, t, id)
       else if id in pending then NoRemoval(states, actions, c, n, t, id)
       else OneRemoval(states, actions, c, n, t, id)
  }

  lemma FirstProgress(states: seq<State>, actions: seq<Action>, c: nat, t: Tid, id: ClientId, pending: seq<ClientId>,
                      collected: set<ClientId>)
    requires Enumerates(pending, collected)
    ensures Progress(states, actions, c, c + 1, t, id, pending, collected)
  {
    assert id in Elems(pending) <==> id in pending;
  }

  lemma RemovalNoted(states: seq<State>, actions: seq<Action>, c: nat, n: nat, t: Tid, id: ClientId)
    requires c < n
    ensures NoRemoval(states, actions, c, n, t, id) && !RemovesAt(states, actions, n, t, id) ==>
      NoRemoval(states, actions, c, n + 1, t, id)
    ensures NoRemoval(states, actions, c, n, t, id) && RemovesAt(states, actions, n, t, id) ==>
      OneRemoval(states, actions, c, n + 1, t, id)
    ensures OneRemoval(states, actions, c, n, t, id) && !RemovesAt(states, actions, n, t, id) ==>
      OneRemoval(states, actions, c, n + 1, t, id)
  {
    hide RemovesAt;
  }

  lemma MoreProgress(states: seq<State>, actions: seq<Action>, c: nat, n: nat, t: Tid, id: ClientId,
                     pending: seq<ClientId>, removed: seq<ClientId>, rest: seq<ClientId>, collected: set<ClientId>)
    requires Progress(states, actions, c, n, t, id, pending, collected) && c < n
    requires pending == removed + rest && |removed| <= 1
    requires RemovesAt(states, actions, n, t, id) <==> id in removed
    ensures Progress(states, actions, c, n + 1, t, id, rest, collected)
  {
    hide RemovesAt; hide NoRemoval; hide OneRemoval;
    RemovalNoted(states, actions, c, n, t, id);
    NoDupTail(pending, removed, rest);
    assert id in pending <==> id in removed || id in rest;
  }

  lemma OtherTasksStay(s: State, a: Action, t: Tid)
    requires Enabled(s, a) && t in s.tasks && a != Turn(t)
    ensures t in Apply(s, a).tasks && Apply(s, a).tasks[t] == s.tasks[t]
  {
    hide Start; hide Resume;
  }

  // One step of the run: what the sweep removes with it, if it is a turn of the sweep.
  lemma OneStep(states: seq<State>, actions: seq<Action>, n: nat, t: Tid, id: ClientId) returns (removed: seq<ClientId>)
    requires Run(states, actions) && n + 1 < |states| && t in states[n].tasks && Removing(states[n].tasks[t])
    ensures t in states[n + 1].tasks && Removing(states[n + 1].tasks[t])
    ensures Pending(states[n].tasks[t]) == removed + Pending(states[n + 1].tasks[t]) && |removed| <= 1
    ensures RemovesAt(states, actions, n, t, id) <==> id in removed
  {
    RunStep(states, actions, n);
    hide Run; hide Pending; hide Removing; hide Resume; hide ReplyTo;
    var task := states[n].tasks[t];
    if actions[n] == Turn(t) {
      SweepStep(states[n].stores, task);
      removed := if task.op.RemoveSession? then [task.op.client] else [];
    } else {
      OtherTasksStay(states[n], actions[n], t);
      hide Apply;
      removed := [];
    }
  }

  lemma {:induction false} SweepSoFar(states: seq<State>, actions: seq<Action>, c: nat, n: nat, t: Tid, deadline: int,
                                      id: ClientId)
    requires Run(states, actions) && CollectsAt(states, actions, c, t, deadline) && c < n < |states|
    ensures t in states[n].tasks && Removing(states[n].tasks[t])
    ensures Progress(states, actions, c, n, t, id, Pending(states[n].tasks[t]),
                     states[c].stores.clients.Expired(deadline))
    decreases n
  {
    hide Run; hide Pending; hide Removing; hide Registry.Expired; hide Resume; hide ReplyTo; hide Progress; hide Inv;
    var collected := states[c].stores.clients.Expired(deadline);
    if n == c + 1 {
      RunStep(states, actions, c);
      RunKeepsInv(states, actions, c);
      InvHasClients(states[c]);
      var task := states[c].tasks[t];
      CollectStep(states[c].stores, deadline, task.op.walk, task.frame.walks);
      FirstProgress(states, actions, c, t, id, Pending(states[n].tasks[t]), collected);
    } else {
      hide CollectsAt;
      SweepSoFar(states, actions, c, n - 1, t, deadline, id);
      var removed := OneStep(states, actions, n - 1, t, id);
      MoreProgress(states, actions, c, n - 1, t, id, Pending(states[n - 1].tasks[t]), removed,
                   Pending(states[n].tasks[t]), collected);
    }
  }

  lemma InvHasClients(s: State)
    requires Inv(s)
    ensures s.stores.clients.Inv()
  {
  }

  lemma NoDupTail<T>(q: seq<T>, first: seq<T>, rest: seq<T>)
    requires NoDup(q) && q == first + rest
    ensures NoDup(rest) && forall x :: x in first ==> x !in rest
  {
    assert forall i :: 0 <= i < |rest| ==> rest[i] == q[|first| + i];
    assert forall i :: 0 <= i < |first| ==> first[i] == q[i];
  }

  // A sweep that is over has run exactly one removal for each session it collected,
  // and none for any other.
  lemma EachCollectedRemovedOnce(states: seq<State>, actions: seq<Action>, c: nat, n: nat, t: Tid, deadline: int,
                                 id: ClientId)
    requires Run(states, actions) && CollectsAt(states, actions, c, t, deadline) && c < n < |states|
    requires t in states[n].tasks && states[n].tasks[t].Done?
    ensures if id in states[c].stores.clients.Expired(deadline) then OneRemoval(states, actions, c, n, t, id)
            else NoRemoval(states, actions, c, n, t, id)
  {
    hide Run; hide CollectsAt; hide NoRemoval; hide OneRemoval; hide Removing; hide RemovesAt;
    SweepSoFar(states, actions, c, n, t, deadline, id);
  }

  // With its turn r the sweep ends the client's session.
  ghost predicate EndsAt(states: seq<State>, actions: seq<Action>, r: nat, t: Tid, id: ClientId) {
    && r < |actions| && r + 1 < |states| && actions[r] == Turn(t)
    && id in states[r].stores.clients.byId && id !in states[r + 1].stores.clients.byId
  }

  lemma EndsByRemoval(states: seq<State>, actions: seq<Action>, r: nat, t: Tid, id: ClientId)
    requires Run(states, actions) && r + 1 < |states|
    requires t in states[r].tasks && Removing(states[r].tasks[t])
    ensures EndsAt(states, actions, r, t, id)
      <==> RemovesAt(states, actions, r, t, id) && id in states[r].stores.clients.byId
  {
    RunStep(states, actions, r);
    hide Run; hide Resume; hide ReplyTo;
  }

  // The sweep ends a session exactly if the last heartbeat was before the deadline
  // when the sessions were collected, and the session is still live when its turn
  // comes, no matter what heartbeats were accepted meanwhile.
  lemma SweepEndsSessionIff(states: seq<State>, actions: seq<Action>, c: nat, n: nat, t: Tid, deadline: int,
                            id: ClientId)
    requires Run(states, actions) && CollectsAt(states, actions, c, t, deadline) && c < n < |states|
    requires t in states[n].tasks && states[n].tasks[t].Done?
    ensures (exists r :: c < r < n && EndsAt(states, actions, r, t, id))
      <==> && id in states[c].stores.clients.Expired(deadline)
           && (forall r :: c < r < n && RemovesAt(states, actions, r, t, id) ==> id in states[r].stores.clients.byId)
  {
    hide Run; hide CollectsAt; hide Removing; hide EndsAt; hide RemovesAt;
    EachCollectedRemovedOnce(states, actions, c, n, t, deadline, id);
    forall r | c < r < n
      ensures EndsAt(states, actions, r, t, id)
        <==> RemovesAt(states, actions, r, t, id) && id in states[r].stores.clients.byId
    {
      SweepSoFar(states, actions, c, r, t, deadline, id);
      EndsByRemoval(states, actions, r, t, id);
    }
  }
}

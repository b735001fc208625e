/**
 What a call of the client publisher has done by the time it returns: each writer
 it collected has been served exactly once, unless it had been disarmed by then,
 and no other writer has been written to.
 */
module ChatRounds {
  import opened Core
  import Chat = ChatPublisher
  import opened WriterProtocol

  // ----- What one step of a thread does to one entry -----

  ghost predicate Changes(s: State, a: Action, s': State, t: Tid, e: EntryId) {
    a.t == t && e in s.written && (e !in s'.written || s'.written[e] != s.written[e])
  }

  // The thread looks at the entry, under the entry's lock, and finds it disarmed.
  ghost predicate FindsDisarmed(s: State, a: Action, t: Tid, e: EntryId) {
    && a == Begin(t) && t in s.threads && s.threads[t].Locked? && s.threads[t].entry == e
    && e in s.locks && s.locks[e] == t && !IsArmed(s, e)
  }

  // How often t has taken the lock of e in the steps from h to n.
  ghost function Visits(actions: seq<Action>, h: nat, n: nat, t: Tid, e: EntryId): nat
    requires h <= n <= |actions|
    decreases n
  {
    if h == n then 0 else Visits(actions, h, n - 1, t, e) + One(actions[n - 1] == Lock(t, e))
  }

  ghost function Writes(states: seq<State>, actions: seq<Action>, h: nat, n: nat, t: Tid, e: EntryId): nat
    requires h <= n <= |actions| < |states|
    decreases n
  {
    if h == n then 0
    else Writes(states, actions, h, n - 1, t, e) + One(Changes(states[n - 1], actions[n - 1], states[n], t, e))
  }

  ghost function Skips(states: seq<State>, actions: seq<Action>, h: nat, n: nat, t: Tid, e: EntryId): nat
    requires h <= n <= |actions| < |states|
    decreases n
  {
    if h == n then 0
    else Skips(states, actions, h, n - 1, t, e) + One(FindsDisarmed(states[n - 1], actions[n - 1], t, e))
  }

  // ----- Where a thread stands in its round -----

  ghost predicate InRound(pc: Pc, targets: set<EntryId>, event: Chat.ChatEvent) {
    || pc.Finished?
    || (&& (pc.Writing? || pc.Locked? || pc.InFlight? || pc.Unlocking?)
        && pc.event == event && pc.targets <= targets
        && (!pc.Writing? ==> pc.entry in targets && pc.entry !in pc.targets))
  }

  // Entries whose lock it has taken, and those it is through with.
  predicate Visited(pc: Pc, targets: set<EntryId>, e: EntryId) {
    e in targets && ((pc.Writing? || pc.Locked? || pc.InFlight? || pc.Unlocking?) ==> e !in pc.targets)
  }

  predicate Served(pc: Pc, targets: set<EntryId>, e: EntryId) {
    Visited(pc, targets, e) && (pc.Locked? || pc.InFlight? ==> e != pc.entry)
  }

  lemma RoundStep(s: State, a: Action, t: Tid, targets: set<EntryId>, event: Chat.ChatEvent, e: EntryId)
    requires Enabled(s, a) && t in s.threads && InRound(s.threads[t], targets, event)
    ensures var s' := Apply(s, a);
      && t in s'.threads && InRound(s'.threads[t], targets, event)
      && One(Visited(s'.threads[t], targets, e)) == One(Visited(s.threads[t], targets, e)) + One(a == Lock(t, e))
  {
    hide WritersAfter; hide ArmedAfter; hide LocksAfter; hide WrittenAfter; hide IsArmed;
  }

  // The count of what is served grows as entries are written to or found disarmed,
  // and what is written is the event.
  ghost predicate Serves(s: State, a: Action, t: Tid, targets: set<EntryId>, event: Chat.ChatEvent, e: EntryId)
    requires Enabled(s, a) && t in s.threads
  {
    var s' := Apply(s, a);
    && t in s'.threads
    && One(Served(s'.threads[t], targets, e))
       == One(Served(s.threads[t], targets, e)) + One(Changes(s, a, s', t, e)) + One(FindsDisarmed(s, a, t, e))
    && (Changes(s, a, s', t, e) ==> e in targets && s'.written == s.written[e := s.written[e] + [event]])
  }

  lemma BeginServes(s: State, t: Tid, targets: set<EntryId>, event: Chat.ChatEvent, e: EntryId)
    requires Inv(s) && Enabled(s, Begin(t)) && t in s.threads && InRound(s.threads[t], targets, event)
    ensures Serves(s, Begin(t), t, targets, event, e)
  {
    HoldsIt(s, t);
    hide Inv; hide IsArmed; hide WritersAfter; hide ArmedAfter; hide LocksAfter;
  }

  lemma EndServes(s: State, t: Tid, targets: set<EntryId>, event: Chat.ChatEvent, e: EntryId)
    requires Inv(s) && Enabled(s, End(t)) && t in s.threads && InRound(s.threads[t], targets, event)
    ensures Serves(s, End(t), t, targets, event, e)
  {
    IsWritable(s, t);
    hide Inv; hide IsArmed; hide WritersAfter; hide ArmedAfter; hide LocksAfter;
    var pc := s.threads[t];
    assert s.written[pc.entry] + [event] != s.written[pc.entry];
  }

  lemma NothingServed(s: State, a: Action, t: Tid, targets: set<EntryId>, event: Chat.ChatEvent, e: EntryId)
    requires Enabled(s, a) && t in s.threads && InRound(s.threads[t], targets, event)
    requires a != Begin(t) && a != End(t)
    ensures Serves(s, a, t, targets, event, e)
  {
    hide IsArmed; hide WritersAfter; hide ArmedAfter; hide LocksAfter;
    assert a.t == t ==> !a.Spawn?;
  }

  lemma ServingStep(s: State, a: Action, t: Tid, targets: set<EntryId>, event: Chat.ChatEvent, e: EntryId)
    requires Inv(s) && Enabled(s, a) && t in s.threads && InRound(s.threads[t], targets, event)
    ensures Serves(s, a, t, targets, event, e)
  {
    if a == Begin(t) {
      BeginServes(s, t, targets, event, e);
    } else if a == End(t) {
      EndServes(s, t, targets, event, e);
    } else {
      NothingServed(s, a, t, targets, event, e);
    }
    hide *;
  }

  lemma HoldsIt(s: State, t: Tid)
    requires Inv(s) && t in s.threads && s.threads[t].Locked?
    ensures s.threads[t].entry in s.locks && s.locks[s.threads[t].entry] == t
  {
    assert Holds(s.threads[t]) == Some(s.threads[t].entry);
    hide MapInv; hide ThreadInv;
  }

  lemma IsWritable(s: State, t: Tid)
    requires Inv(s) && t in s.threads && s.threads[t].InFlight?
    ensures s.threads[t].entry in s.written
  {
    hide LockInv; hide NewEntries; hide Gone;
  }

  // Before it has collected anything.
  lemma IdleStep(s: State, a: Action, t: Tid, recipients: set<ClientId>, event: Chat.ChatEvent, e: EntryId)
    requires Enabled(s, a) && t in s.threads && s.threads[t] == Collecting(recipients, event)
    ensures var s' := Apply(s, a);
      && t in s'.threads && !Changes(s, a, s', t, e) && !FindsDisarmed(s, a, t, e) && a != Lock(t, e)
      && if a == Collect(t) then
           s'.threads[t] == Writing(event, set c | c in s.writers && c in recipients :: s.writers[c])
         else s'.threads[t] == s.threads[t]
  {
    hide WritersAfter; hide ArmedAfter; hide LocksAfter;
  }

  // ----- Over a run -----

  ghost predicate Counted(states: seq<State>, actions: seq<Action>, h: nat, n: nat, t: Tid, pc: Pc,
                          targets: set<EntryId>, e: EntryId)
    requires h <= n <= |actions| < |states|
  {
    && Visits(actions, h, n, t, e) == One(Visited(pc, targets, e))
    && Writes(states, actions, h, n, t, e) + Skips(states, actions, h, n, t, e) == One(Served(pc, targets, e))
  }

  ghost predicate Idle(states: seq<State>, actions: seq<Action>, h: nat, n: nat, t: Tid, e: EntryId)
    requires h <= n <= |actions| < |states|
  {
    && Visits(actions, h, n, t, e) == 0
    && Writes(states, actions, h, n, t, e) == 0 && Skips(states, actions, h, n, t, e) == 0
  }

  lemma RunStep(states: seq<State>, actions: seq<Action>, k: nat)
    requires Run(states, actions) && k < |actions|
    ensures k + 1 < |states| && Enabled(states[k], actions[k]) && states[k + 1] == Apply(states[k], actions[k])
  {
    hide Apply; hide Enabled; hide Initial;
  }

  ghost function Mapped(s: State, recipients: set<ClientId>): set<EntryId> {
    set c | c in s.writers && c in recipients :: s.writers[c]
  }

  // Since it collected at i, all the thread has changed is to append the event.
  ghost predicate OnlyAppends(states: seq<State>, actions: seq<Action>, h: nat, i: nat, n: nat, t: Tid, e: EntryId,
                              event: Chat.ChatEvent)
    requires n <= |actions| < |states|
  {
    forall j :: h <= j < n && Changes(states[j], actions[j], states[j + 1], t, e) ==>
      i < j && states[j + 1].written == states[j].written[e := states[j].written[e] + [event]]
  }

  lemma {:induction false} NothingChanged(states: seq<State>, actions: seq<Action>, h: nat, n: nat, t: Tid, e: EntryId)
    requires h <= n <= |actions| < |states| && Writes(states, actions, h, n, t, e) == 0
    ensures forall j :: h <= j < n ==> !Changes(states[j], actions[j], states[j + 1], t, e)
    decreases n
  {
    hide Changes;
    if h < n {
      NothingChanged(states, actions, h, n - 1, t, e);
    }
  }

  lemma Collected(pc: Pc, targets: set<EntryId>, event: Chat.ChatEvent, e: EntryId)
    requires pc == Writing(event, targets)
    ensures InRound(pc, targets, event) && !Visited(pc, targets, e) && !Served(pc, targets, e)
  {
  }

  // The round that began at i is on, or over.
  ghost predicate Rounding(states: seq<State>, actions: seq<Action>, h: nat, i: nat, n: nat, t: Tid,
                           recipients: set<ClientId>, event: Chat.ChatEvent, e: EntryId)
    requires h <= n <= |actions| < |states|
  {
    && h <= i < n && actions[i] == Collect(t) && (forall j :: h <= j < i ==> actions[j] != Collect(t))
    && t in states[n].threads && InRound(states[n].threads[t], Mapped(states[i], recipients), event)
    && Counted(states, actions, h, n, t, states[n].threads[t], Mapped(states[i], recipients), e)
    && OnlyAppends(states, actions, h, i, n, t, e, event)
  }

  // Nothing has been collected yet.
  ghost predicate Waiting(states: seq<State>, actions: seq<Action>, h: nat, n: nat, t: Tid,
                          recipients: set<ClientId>, event: Chat.ChatEvent, e: EntryId)
    requires h <= n <= |actions| < |states|
  {
    && t in states[n].threads && states[n].threads[t] == Collecting(recipients, event)
    && Idle(states, actions, h, n, t, e) && forall j :: h <= j < n ==> actions[j] != Collect(t)
  }

  lemma WaitingGoesOn(states: seq<State>, actions: seq<Action>, h: nat, n: nat, t: Tid, recipients: set<ClientId>,
                      event: Chat.ChatEvent, e: EntryId)
    requires Run(states, actions) && h < n <= |actions| < |states|
    requires Waiting(states, actions, h, n - 1, t, recipients, event, e)
    ensures if actions[n - 1] == Collect(t) then Rounding(states, actions, h, n - 1, n, t, recipients, event, e)
            else Waiting(states, actions, h, n, t, recipients, event, e)
  {
    RunStep(states, actions, n - 1);
    hide Run; hide Apply; hide Enabled; hide Changes; hide FindsDisarmed; hide InRound; hide Visited; hide Served;
    IdleStep(states[n - 1], actions[n - 1], t, recipients, event, e);
    if actions[n - 1] == Collect(t) {
      NothingChanged(states, actions, h, n, t, e);
      Collected(states[n].threads[t], Mapped(states[n - 1], recipients), event, e);
    }
    hide Mapped;
  }

  lemma AppendsMore(states: seq<State>, actions: seq<Action>, h: nat, i: nat, n: nat, t: Tid, e: EntryId,
                    event: Chat.ChatEvent)
    requires h < n <= |actions| < |states| && i < n - 1 && OnlyAppends(states, actions, h, i, n - 1, t, e, event)
    requires Changes(states[n - 1], actions[n - 1], states[n], t, e) ==>
      states[n].written == states[n - 1].written[e := states[n - 1].written[e] + [event]]
    ensures OnlyAppends(states, actions, h, i, n, t, e, event)
  {
    hide Changes;
  }

  lemma CountsGrow(states: seq<State>, actions: seq<Action>, h: nat, n: nat, t: Tid, e: EntryId)
    requires h < n <= |actions| < |states|
    ensures Visits(actions, h, n, t, e) == Visits(actions, h, n - 1, t, e) + One(actions[n - 1] == Lock(t, e))
    ensures Writes(states, actions, h, n, t, e)
      == Writes(states, actions, h, n - 1, t, e) + One(Changes(states[n - 1], actions[n - 1], states[n], t, e))
    ensures Skips(states, actions, h, n, t, e)
      == Skips(states, actions, h, n - 1, t, e) + One(FindsDisarmed(states[n - 1], actions[n - 1], t, e))
  {
    hide Changes; hide FindsDisarmed;
  }

  lemma RoundGoesOn(states: seq<State>, actions: seq<Action>, h: nat, i: nat, n: nat, t: Tid,
                    recipients: set<ClientId>, event: Chat.ChatEvent, e: EntryId)
    requires Run(states, actions) && h < n <= |actions| < |states|
    requires Rounding(states, actions, h, i, n - 1, t, recipients, event, e)
    ensures Rounding(states, actions, h, i, n, t, recipients, event, e)
  {
    RunStep(states, actions, n - 1);
    RunKeepsInv(states, actions, n - 1);
    var targets := Mapped(states[i], recipients);
    hide Run; hide Apply; hide Enabled; hide Inv; hide Changes; hide FindsDisarmed; hide InRound; hide Visited;
    hide Served; hide Mapped; hide OnlyAppends; hide Visits; hide Writes; hide Skips; hide One;
    CountsGrow(states, actions, h, n, t, e);
    RoundStep(states[n - 1], actions[n - 1], t, targets, event, e);
    ServingStep(states[n - 1], actions[n - 1], t, targets, event, e);
    AppendsMore(states, actions, h, i, n, t, e, event);
  }

  lemma {:induction false} RoundSoFar(states: seq<State>, actions: seq<Action>, h: nat, n: nat, t: Tid,
                                      recipients: set<ClientId>, event: Chat.ChatEvent, e: EntryId)
    returns (i: nat)
    requires Run(states, actions) && h <= n <= |actions| < |states|
    requires t in states[h].threads && states[h].threads[t] == Collecting(recipients, event)
    ensures || Waiting(states, actions, h, n, t, recipients, event, e)
            || Rounding(states, actions, h, i, n, t, recipients, event, e)
    decreases n
  {
    i := h;
    if h == n {
      hide Run; hide InRound; hide Counted; hide OnlyAppends;
    } else {
      hide Run; hide InRound; hide Counted; hide OnlyAppends; hide Idle;
      i := RoundSoFar(states, actions, h, n - 1, t, recipients, event, e);
      hide Waiting; hide Rounding;
      if Waiting(states, actions, h, n - 1, t, recipients, event, e) {
        WaitingGoesOn(states, actions, h, n, t, recipients, event, e);
        i := n - 1;
      } else {
        RoundGoesOn(states, actions, h, i, n, t, recipients, event, e);
      }
    }
  }

  // Thread t, which collected at i, took the lock of the entry exactly once if the
  // entry was mapped for a recipient, and not at all otherwise; each time it appended
  // the event or found the entry disarmed; and it changed the stream in no other way.
  ghost predicate ServedOnce(states: seq<State>, actions: seq<Action>, h: nat, i: nat, n: nat, t: Tid,
                             recipients: set<ClientId>, event: Chat.ChatEvent, e: EntryId)
    requires h <= i < n <= |actions| < |states|
  {
    && Visits(actions, h, n, t, e)
       == One(exists c :: c in states[i].writers && c in recipients && states[i].writers[c] == e)
    && Writes(states, actions, h, n, t, e) + Skips(states, actions, h, n, t, e) == Visits(actions, h, n, t, e)
    && OnlyAppends(states, actions, h, i, n, t, e, event)
  }

  // In every run, when a publish or broadcast has returned, this holds of every entry.
  lemma EachIsServedOnce(states: seq<State>, actions: seq<Action>, h: nat, n: nat, t: Tid, recipients: set<ClientId>,
                         event: Chat.ChatEvent)
    returns (i: nat)
    requires Run(states, actions) && h <= n <= |actions|
    requires t in states[h].threads && states[h].threads[t] == Collecting(recipients, event)
    requires t in states[n].threads && states[n].threads[t].Finished?
    ensures h <= i < n && actions[i] == Collect(t)
    ensures forall e :: ServedOnce(states, actions, h, i, n, t, recipients, event, e)
  {
    assert |states| == |actions| + 1;
    hide Run; hide Idle; hide InRound; hide OnlyAppends; hide FindsDisarmed;
    i := RoundSoFar(states, actions, h, n, t, recipients, event, EntryId(0));
    forall e ensures ServedOnce(states, actions, h, i, n, t, recipients, event, e) {
      var i' := RoundSoFar(states, actions, h, n, t, recipients, event, e);
      assert i' == i;
    }
  }

  // ----- Nothing stops a thread but a lock -----

  ghost predicate CanMove(s: State, t: Tid) {
    exists a: Action :: !a.Spawn? && a.t == t && Enabled(s, a)
  }

  // It needs the lock of an entry, and each that would do is held by somebody else.
  ghost predicate Blocked(s: State, t: Tid)
    requires t in s.threads
  {
    match s.threads[t]
    case Writing(_, targets) => targets != {} && forall e :: e in targets ==> e in s.locks && s.locks[e] != t
    case AboutToDisarm(e) => e in s.locks && s.locks[e] != t
    case _ => false
  }

  // A thread holds at most the one lock of the section it stands in.
  lemma OwnLock(s: State, t: Tid, e: EntryId)
    requires Inv(s) && e in s.locks && s.locks[e] == t
    ensures t in s.threads && Holds(s.threads[t]) == Some(e)
  {
    hide MapInv; hide ThreadInv;
  }

  lemma NextMove(s: State, t: Tid) returns (a: Action)
    requires t in s.threads && !s.threads[t].Finished? && !s.threads[t].Returned? && !Blocked(s, t)
    requires forall e :: e in s.locks && s.locks[e] == t ==> Holds(s.threads[t]) == Some(e)
    ensures !a.Spawn? && a.t == t && Enabled(s, a)
  {
    match s.threads[t] {
      case Registering(_, _) => a := Insert(t);
      case Collecting(_, _) => a := Collect(t);
      case Writing(_, targets) =>
        a := DoneWriting(t);
        if targets != {} {
          var e :| e in targets && e !in s.locks;
          a := Lock(t, e);
        }
      case Locked(_, _, _) => a := Begin(t);
      case InFlight(_, _, _) => a := End(t);
      case Unlocking(_, _, _) => a := Unlock(t);
      case Unregistering(_) => a := Erase(t);
      case AboutToDisarm(_) => a := LockErased(t);
      case Disarming(_) => a := Disarm(t);
      case Disarmed(_) => a := Return(t);
    }
  }

  lemma CannotMove(s: State, t: Tid, a: Action)
    requires t in s.threads && (s.threads[t].Finished? || s.threads[t].Returned? || Blocked(s, t))
    requires !a.Spawn? && a.t == t
    ensures !Enabled(s, a)
  {
  }

  lemma MovesUnlessBlocked(s: State, t: Tid)
    requires Inv(s) && t in s.threads
    ensures CanMove(s, t) <==> !s.threads[t].Finished? && !s.threads[t].Returned? && !Blocked(s, t)
  {
    forall e | e in s.locks && s.locks[e] == t ensures Holds(s.threads[t]) == Some(e) {
      OwnLock(s, t, e);
    }
    hide Inv; hide Enabled; hide Blocked; hide Holds;
    if !s.threads[t].Finished? && !s.threads[t].Returned? && !Blocked(s, t) {
      var a := NextMove(s, t);
    } else {
      forall a: Action | !a.Spawn? && a.t == t ensures !Enabled(s, a) {
        CannotMove(s, t, a);
      }
    }
  }

  // In every reachable state: a call that is not over waits only for an entry's lock
  // that another thread holds, and that other thread can move.
  lemma NeverStuck(states: seq<State>, actions: seq<Action>, n: nat, t: Tid)
    requires Run(states, actions) && n < |states| && t in states[n].threads
    ensures var s := states[n];
      && (CanMove(s, t) <==> !s.threads[t].Finished? && !s.threads[t].Returned? && !Blocked(s, t))
      && (Blocked(s, t) ==>
            exists e :: e in s.locks && s.locks[e] != t && s.locks[e] in s.threads && CanMove(s, s.locks[e]))
  {
    RunKeepsInv(states, actions, n);
    var s := states[n];
    hide Run;
    MovesUnlessBlocked(s, t);
    if Blocked(s, t) {
      var e :| e in s.locks && s.locks[e] != t;
      OwnLock(s, s.locks[e], e);
      hide Inv; hide CanMove;
      MovesUnlessBlocked(s, s.locks[e]);
    }
  }
}

/**
 The client publisher under concurrency. Any number of threads register and
 unregister writers and write to collected entries. A write is cut into its
 parts, taking the entry's lock, looking at the writer, the Write call itself
 and giving the lock back, so that a Write can be in flight while other threads
 move. The short sections under the map's lock are one step each.
 */
module WriterProtocol {
  import opened Core
  import opened ChatPublisher

  datatype Pc =
    | Registering(client: ClientId, entry: EntryId)               // about to put its entry into the map
    | Collecting(recipients: set<ClientId>, event: ChatEvent)     // publish has one recipient
    | Writing(event: ChatEvent, targets: set<EntryId>)            // between two entries
    | Locked(event: ChatEvent, targets: set<EntryId>, entry: EntryId)
    | InFlight(event: ChatEvent, targets: set<EntryId>, entry: EntryId)
    | Unlocking(event: ChatEvent, targets: set<EntryId>, entry: EntryId)
    | Unregistering(client: ClientId)
    | AboutToDisarm(entry: EntryId)                               // erased; waiting for the entry's lock
    | Disarming(entry: EntryId)                                   // holds the entry's lock
    | Disarmed(entry: EntryId)                                    // holds the entry's lock
    | Returned(entry: EntryId)                                    // the unregister call that erased the entry is over
    | Finished

  datatype State = State(
    writers: map<ClientId, EntryId>,
    armed: map<EntryId, bool>,              // every entry ever made: does it still point at its writer?
    locks: map<EntryId, Tid>,               // who holds the lock of an entry
    written: map<EntryId, seq<ChatEvent>>,  // completed writes
    threads: map<Tid, Pc>)

  // Whose lock a thread holds, if any.
  function Holds(pc: Pc): Option<EntryId> {
    if pc.Locked? || pc.InFlight? || pc.Unlocking? || pc.Disarming? || pc.Disarmed? then Some(pc.entry) else None
  }

  datatype Action =
    | Spawn(t: Tid, pc: Pc)
    | Insert(t: Tid)
    | Collect(t: Tid)
    | Lock(t: Tid, entry: EntryId)
    | Begin(t: Tid)
    | End(t: Tid)
    | Unlock(t: Tid)
    | DoneWriting(t: Tid)
    | Erase(t: Tid)
    | LockErased(t: Tid)
    | Disarm(t: Tid)
    | Return(t: Tid)

  ghost predicate Enabled(s: State, a: Action) {
    if a.Spawn? then
      && a.t !in s.threads && (a.pc.Registering? || a.pc.Collecting? || a.pc.Unregistering?)
      && (a.pc.Registering? ==> a.pc.entry !in s.armed && a.pc.entry !in s.written && a.pc.entry !in s.locks)
    else
      && a.t in s.threads
      && match a
         case Insert(t) => s.threads[t].Registering?
         case Collect(t) => s.threads[t].Collecting?
         case Lock(t, entry) => s.threads[t].Writing? && entry in s.threads[t].targets && entry !in s.locks
         case Begin(t) => s.threads[t].Locked?
         case End(t) => s.threads[t].InFlight?
         case Unlock(t) => s.threads[t].Unlocking?
         case DoneWriting(t) => s.threads[t].Writing? && s.threads[t].targets == {}
         case Erase(t) => s.threads[t].Unregistering?
         case LockErased(t) => s.threads[t].AboutToDisarm? && s.threads[t].entry !in s.locks
         case Disarm(t) => s.threads[t].Disarming?
         case Return(t) => s.threads[t].Disarmed?
         case _ => true
  }

  predicate IsArmed(s: State, e: EntryId) {
    e in s.armed && s.armed[e]
  }

  // ----- Steps, field by field -----

  ghost function PcAfter(s: State, a: Action): Pc
    requires Enabled(s, a)
  {
    match a
    case Spawn(t, pc) => pc
    case Collect(t) =>
      Writing(s.threads[t].event, set c | c in s.writers && c in s.threads[t].recipients :: s.writers[c])
    case Lock(t, entry) => Locked(s.threads[t].event, s.threads[t].targets - {entry}, entry)
    case Begin(t) =>
      var pc := s.threads[t];
      if IsArmed(s, pc.entry) then InFlight(pc.event, pc.targets, pc.entry)
      else Unlocking(pc.event, pc.targets, pc.entry)
    case End(t) => Unlocking(s.threads[t].event, s.threads[t].targets, s.threads[t].entry)
    case Unlock(t) => Writing(s.threads[t].event, s.threads[t].targets)
    case Erase(t) =>
      if s.threads[t].client in s.writers then AboutToDisarm(s.writers[s.threads[t].client]) else Finished
    case LockErased(t) => Disarming(s.threads[t].entry)
    case Disarm(t) => Disarmed(s.threads[t].entry)
    case Return(t) => Returned(s.threads[t].entry)
    case _ => Finished
  }

  ghost function ThreadsAfter(s: State, a: Action): map<Tid, Pc>
    requires Enabled(s, a)
  {
    s.threads[a.t := PcAfter(s, a)]
  }

  ghost function WritersAfter(s: State, a: Action): map<ClientId, EntryId>
    requires Enabled(s, a)
  {
    match a
    case Insert(t) => s.writers[s.threads[t].client := s.threads[t].entry]
    case Erase(t) => s.writers - {s.threads[t].client}
    case _ => s.writers
  }

  ghost function ArmedAfter(s: State, a: Action): map<EntryId, bool>
    requires Enabled(s, a)
  {
    match a
    case Spawn(t, pc) => if pc.Registering? then s.armed[pc.entry := true] else s.armed
    case Disarm(t) => s.armed[s.threads[t].entry := false]
    case _ => s.armed
  }

  ghost function LocksAfter(s: State, a: Action): map<EntryId, Tid>
    requires Enabled(s, a)
  {
    match a
    case Lock(t, entry) => s.locks[entry := t]
    case LockErased(t) => s.locks[s.threads[t].entry := t]
    case Unlock(t) => s.locks - {s.threads[t].entry}
    case Return(t) => s.locks - {s.threads[t].entry}
    case _ => s.locks
  }

  ghost function WrittenAfter(s: State, a: Action): map<EntryId, seq<ChatEvent>>
    requires Enabled(s, a)
  {
    match a
    case Spawn(t, pc) => if pc.Registering? then s.written[pc.entry := []] else s.written
    case End(t) =>
      var e := s.threads[t].entry;
      if e in s.written then s.written[e := s.written[e] + [s.threads[t].event]] else s.written
    case _ => s.written
  }

  ghost function Apply(s: State, a: Action): State
    requires Enabled(s, a)
  {
    State(WritersAfter(s, a), ArmedAfter(s, a), LocksAfter(s, a), WrittenAfter(s, a), ThreadsAfter(s, a))
  }

  ghost predicate Initial(s: State) {
    s == State(map[], map[], map[], map[], map[])
  }

  ghost predicate Run(states: seq<State>, actions: seq<Action>) {
    && |states| == |actions| + 1
    && Initial(states[0])
    && forall i :: 0 <= i < |actions| ==>
         Enabled(states[i], actions[i]) && states[i + 1] == Apply(states[i], actions[i])
  }

  // ----- The invariant -----

  // A lock is held by exactly the thread that stands inside its section.
  ghost predicate LockInv(s: State) {
    && (forall t :: t in s.threads && Holds(s.threads[t]).Some? ==>
          Holds(s.threads[t]).value in s.locks && s.locks[Holds(s.threads[t]).value] == t)
    && (forall e :: e in s.locks ==> s.locks[e] in s.threads && Holds(s.threads[s.locks[e]]) == Some(e))
  }

  // No longer in the map, and nobody is about to put it there.
  ghost predicate Gone(s: State, e: EntryId) {
    && e in s.armed && e !in s.writers.Values
    && forall t :: t in s.threads && s.threads[t].Registering? ==> s.threads[t].entry != e
  }

  ghost predicate KnownEntries(s: State) {
    && s.armed.Keys == s.written.Keys
    && (forall c :: c in s.writers ==> IsArmed(s, s.writers[c]))
    && (forall c, d :: c in s.writers && d in s.writers && s.writers[c] == s.writers[d] ==> c == d)
  }

  ghost predicate NewEntries(s: State) {
    && (forall t, u :: t in s.threads && u in s.threads && t != u
                       && s.threads[t].Registering? && s.threads[u].Registering?
          ==> s.threads[t].entry != s.threads[u].entry)
    && (forall t :: t in s.threads && s.threads[t].Registering? ==>
          IsArmed(s, s.threads[t].entry) && s.threads[t].entry !in s.writers.Values)
  }

  ghost predicate MapInv(s: State) {
    KnownEntries(s) && NewEntries(s)
  }

  ghost predicate ThreadInv(s: State, pc: Pc) {
    && (pc.InFlight? ==> IsArmed(s, pc.entry))
    && (pc.AboutToDisarm? || pc.Disarming? || pc.Disarmed? || pc.Returned? ==> Gone(s, pc.entry))
    && (pc.Disarmed? || pc.Returned? ==> !IsArmed(s, pc.entry))
  }

  ghost predicate Inv(s: State) {
    && LockInv(s) && MapInv(s)
    && (forall t :: t in s.threads ==> ThreadInv(s, s.threads[t]))
  }

  // What a thread holds after a step, and that its lock says so.
  lemma StepKeepsHolders(s: State, a: Action, u: Tid)
    requires LockInv(s) && Enabled(s, a) && u in Apply(s, a).threads && Holds(Apply(s, a).threads[u]).Some?
    ensures var e := Holds(Apply(s, a).threads[u]).value; e in Apply(s, a).locks && Apply(s, a).locks[e] == u
  {
    hide WritersAfter; hide ArmedAfter; hide WrittenAfter; hide IsArmed; hide Gone;
  }

  lemma StepKeepsLocks(s: State, a: Action, e: EntryId)
    requires LockInv(s) && Enabled(s, a) && e in Apply(s, a).locks
    ensures var t := Apply(s, a).locks[e]; t in Apply(s, a).threads && Holds(Apply(s, a).threads[t]) == Some(e)
  {
    hide WritersAfter; hide ArmedAfter; hide WrittenAfter; hide IsArmed; hide Gone;
  }

  lemma StepKeepsLock(s: State, a: Action)
    requires Inv(s) && Enabled(s, a)
    ensures LockInv(Apply(s, a))
  {
    hide Apply; hide Enabled; hide MapInv; hide ThreadInv; hide Holds;
    var s' := Apply(s, a);
    forall u | u in s'.threads && Holds(s'.threads[u]).Some?
      ensures Holds(s'.threads[u]).value in s'.locks && s'.locks[Holds(s'.threads[u]).value] == u
    {
      StepKeepsHolders(s, a, u);
    }
    forall e | e in s'.locks ensures s'.locks[e] in s'.threads && Holds(s'.threads[s'.locks[e]]) == Some(e) {
      StepKeepsLocks(s, a, e);
    }
  }

  lemma StepKeepsKnown(s: State, a: Action)
    requires Inv(s) && Enabled(s, a)
    ensures KnownEntries(Apply(s, a))
  {
    hide LockInv; hide LocksAfter; hide ThreadsAfter;
    if a.Disarm? {
      assert ThreadInv(s, s.threads[a.t]);
    }
  }

  lemma SpawnKeepsNew(s: State, a: Action)
    requires Inv(s) && Enabled(s, a) && a.Spawn?
    ensures NewEntries(Apply(s, a))
  {
    if a.pc.Registering? {
      UnknownIsUnmapped(s, a.pc.entry);
    }
    hide LockInv; hide LocksAfter; hide WrittenAfter; hide ThreadInv; hide KnownEntries;
  }

  // A registration that is not over keeps its entry, whoever else moves.
  lemma StillRegistering(s: State, a: Action, u: Tid)
    requires Enabled(s, a) && !a.Spawn? && u in Apply(s, a).threads && Apply(s, a).threads[u].Registering?
    ensures u != a.t && u in s.threads && s.threads[u] == Apply(s, a).threads[u]
  {
    hide WritersAfter; hide ArmedAfter; hide LocksAfter; hide WrittenAfter; hide IsArmed;
  }

  lemma NewEntryStaysNew(s: State, a: Action, u: Tid)
    requires Inv(s) && Enabled(s, a) && !a.Spawn? && u in s.threads && s.threads[u].Registering? && u != a.t
    ensures IsArmed(Apply(s, a), s.threads[u].entry) && s.threads[u].entry !in Apply(s, a).writers.Values
  {
    ValuesAfter(s, a);
    if a.Disarm? {
      assert ThreadInv(s, s.threads[a.t]);
    }
    hide LockInv; hide LocksAfter; hide WrittenAfter; hide ThreadInv; hide ThreadsAfter; hide KnownEntries;
    hide WritersAfter;
  }

  lemma StepKeepsNew(s: State, a: Action)
    requires Inv(s) && Enabled(s, a)
    ensures NewEntries(Apply(s, a))
  {
    if a.Spawn? {
      hide *;
      SpawnKeepsNew(s, a);
    } else {
      hide Apply; hide Enabled; hide LockInv; hide ThreadInv; hide KnownEntries; hide IsArmed;
      forall u | u in Apply(s, a).threads && Apply(s, a).threads[u].Registering?
        ensures u in s.threads && s.threads[u] == Apply(s, a).threads[u]
        ensures IsArmed(Apply(s, a), s.threads[u].entry) && s.threads[u].entry !in Apply(s, a).writers.Values
      {
        StillRegistering(s, a, u);
        NewEntryStaysNew(s, a, u);
      }
    }
  }

  // The only entry that a step can bring into the map is that of a registration.
  lemma ValuesAfter(s: State, a: Action)
    requires Enabled(s, a)
    ensures a.Insert? ==>
      forall x :: x in WritersAfter(s, a).Values ==> x in s.writers.Values || x == s.threads[a.t].entry
    ensures !a.Insert? ==> forall x :: x in WritersAfter(s, a).Values ==> x in s.writers.Values
  {
  }

  lemma UnknownIsUnmapped(s: State, e: EntryId)
    requires KnownEntries(s) && e !in s.armed
    ensures e !in s.writers.Values
  {
  }

  // What has left the map stays out of it.
  lemma GoneStays(s: State, a: Action, e: EntryId)
    requires MapInv(s) && Enabled(s, a) && Gone(s, e)
    ensures Gone(Apply(s, a), e)
  {
    hide LocksAfter; hide WrittenAfter;
    ValuesAfter(s, a);
  }

  lemma GoneKnown(s: State, e: EntryId)
    requires Gone(s, e)
    ensures e in s.armed
  {
  }

  // Whatever leaves the map, erased or replaced, is gone at once.
  lemma LeavingIsGone(s: State, a: Action, e: EntryId)
    requires Inv(s) && Enabled(s, a) && e in s.writers.Values && e !in Apply(s, a).writers.Values
    ensures Gone(Apply(s, a), e)
  {
    hide LockInv; hide ThreadInv; hide LocksAfter; hide WrittenAfter;
  }

  // A disarmed entry is never armed again.
  lemma DisarmedStays(s: State, a: Action, e: EntryId)
    requires Enabled(s, a) && e in s.armed && !s.armed[e]
    ensures e in Apply(s, a).armed && !Apply(s, a).armed[e]
  {
  }

  lemma StepKeepsThreads(s: State, a: Action, u: Tid)
    requires Inv(s) && Enabled(s, a) && u in Apply(s, a).threads
    ensures ThreadInv(Apply(s, a), Apply(s, a).threads[u])
  {
    hide WrittenAfter; hide LocksAfter; hide MapInv; hide Gone; hide WritersAfter;
    var s', pc := Apply(s, a), Apply(s, a).threads[u];
    if pc.AboutToDisarm? || pc.Disarming? || pc.Disarmed? || pc.Returned? {
      if a.Erase? && u == a.t {
        ErasedIsGone(s, a);
      } else {
        assert ThreadInv(s, s.threads[u]);
        GoneStays(s, a, pc.entry);
        GoneKnown(s, pc.entry);
      }
    }
    if a.Disarm? && pc.InFlight? {
      assert Holds(s.threads[a.t]) == Some(s.threads[a.t].entry) && Holds(s.threads[u]) == Some(pc.entry);
    }
  }

  lemma ErasedIsGone(s: State, a: Action)
    requires Inv(s) && Enabled(s, a) && a.Erase? && s.threads[a.t].client in s.writers
    ensures Gone(Apply(s, a), s.writers[s.threads[a.t].client])
  {
    hide LockInv; hide ThreadInv; hide LocksAfter; hide WrittenAfter;
    var e := s.writers[s.threads[a.t].client];
    assert e in s.writers.Values;
    LeavingIsGone(s, a, e);
  }

  lemma StepKeepsInv(s: State, a: Action)
    requires Inv(s) && Enabled(s, a)
    ensures Inv(Apply(s, a))
  {
    StepKeepsLock(s, a);
    StepKeepsKnown(s, a);
    StepKeepsNew(s, a);
    hide LockInv; hide MapInv; hide ThreadInv; hide Apply;
    forall u | u in Apply(s, a).threads ensures ThreadInv(Apply(s, a), Apply(s, a).threads[u]) {
      StepKeepsThreads(s, a, u);
    }
  }

  lemma {:induction false} RunKeepsInv(states: seq<State>, actions: seq<Action>, n: nat)
    requires Run(states, actions) && n < |states|
    ensures Inv(states[n])
    decreases n
  {
    if n > 0 {
      hide Apply; hide Enabled; hide Inv;
      RunKeepsInv(states, actions, n - 1);
      assert states[n - 1 + 1] == Apply(states[n - 1], actions[n - 1]);
      StepKeepsInv(states[n - 1], actions[n - 1]);
    }
  }

  // ----- What every run guarantees -----

  // At most one Write is in flight per entry.
  lemma OneWriteInFlight(states: seq<State>, actions: seq<Action>, n: nat, t: Tid, u: Tid)
    requires Run(states, actions) && n < |states|
    requires t in states[n].threads && states[n].threads[t].InFlight?
    requires u in states[n].threads && states[n].threads[u].InFlight?
    requires states[n].threads[t].entry == states[n].threads[u].entry
    ensures t == u
  {
    RunKeepsInv(states, actions, n);
    assert Holds(states[n].threads[t]) == Holds(states[n].threads[u]);
  }

  // An entry that has left the map, or that is disarmed, stays that way.
  lemma {:induction false} NeverBack(states: seq<State>, actions: seq<Action>, i: nat, j: nat, e: EntryId)
    requires Run(states, actions) && i <= j < |states| && e in states[i].armed
    ensures e in states[j].armed
    ensures Gone(states[i], e) ==> Gone(states[j], e)
    ensures !states[i].armed[e] ==> !states[j].armed[e]
    decreases j
  {
    hide Gone; hide Apply; hide Inv; hide Enabled; hide Initial;
    if i < j {
      NeverBack(states, actions, i, j - 1, e);
      RunKeepsInv(states, actions, j - 1);
      assert states[j - 1 + 1] == Apply(states[j - 1], actions[j - 1]);
      NeverBackStep(states[j - 1], actions[j - 1], e);
    }
  }

  lemma NeverBackStep(s: State, a: Action, e: EntryId)
    requires Inv(s) && Enabled(s, a) && e in s.armed
    ensures e in Apply(s, a).armed
    ensures Gone(s, e) ==> Gone(Apply(s, a), e)
    ensures !s.armed[e] ==> !Apply(s, a).armed[e]
  {
    hide LockInv; hide ThreadInv; hide Gone;
    if Gone(s, e) {
      GoneStays(s, a, e);
    }
    if !s.armed[e] {
      DisarmedStays(s, a, e);
    }
  }

  // An entry that was in the map and is not any more never comes back.
  lemma ErasedNeverMappedAgain(states: seq<State>, actions: seq<Action>, i: nat, j: nat, e: EntryId)
    requires Run(states, actions) && i < j < |states|
    requires e in states[i].writers.Values && e !in states[i + 1].writers.Values
    ensures e !in states[j].writers.Values
  {
    RunKeepsInv(states, actions, i);
    assert states[i + 1] == Apply(states[i], actions[i]);
    LeavingIsGone(states[i], actions[i], e);
    NeverBack(states, actions, i + 1, j, e);
  }

  // Once the unregister call that erased an entry has returned, its writer is
  // never written again, and no Write to it is in flight.
  lemma {:induction false} SilentAfterReturn(states: seq<State>, actions: seq<Action>, i: nat, j: nat, t: Tid,
                                             e: EntryId)
    requires Run(states, actions) && i <= j < |states|
    requires t in states[i].threads && states[i].threads[t] == Returned(e)
    ensures e in states[i].written && e in states[j].written && states[j].written[e] == states[i].written[e]
    ensures forall u :: u in states[j].threads && states[j].threads[u].InFlight? ==> states[j].threads[u].entry != e
    decreases j
  {
    RunKeepsInv(states, actions, i);
    RunKeepsInv(states, actions, j);
    assert ThreadInv(states[i], states[i].threads[t]);
    NeverBack(states, actions, i, j, e);
    if i < j {
      SilentAfterReturn(states, actions, i, j - 1, t, e);
      assert states[j - 1 + 1] == Apply(states[j - 1], actions[j - 1]);
    }
  }

  // ----- Where the guarantee ends -----

  // Gone from the map without an unregister call that would disarm it.
  ghost predicate Abandoned(s: State, e: EntryId) {
    && Gone(s, e) && IsArmed(s, e)
    && forall t :: t in s.threads && (s.threads[t].AboutToDisarm? || s.threads[t].Disarming?) ==>
         s.threads[t].entry != e
  }

  lemma ReplacedIsAbandoned(s: State, a: Action, e: EntryId)
    requires Inv(s) && Enabled(s, a) && a.Insert? && e in s.writers.Values && e !in Apply(s, a).writers.Values
    ensures Abandoned(Apply(s, a), e)
  {
    LeavingIsGone(s, a, e);
    hide LockInv; hide WrittenAfter; hide LocksAfter;
    forall t | t in s.threads && (s.threads[t].AboutToDisarm? || s.threads[t].Disarming?)
      ensures s.threads[t].entry != e
    {
      assert ThreadInv(s, s.threads[t]);
    }
  }

  lemma AbandonedStays(s: State, a: Action, e: EntryId)
    requires Inv(s) && Enabled(s, a) && Abandoned(s, e)
    ensures Abandoned(Apply(s, a), e)
  {
    GoneStays(s, a, e);
    hide LockInv; hide WrittenAfter; hide LocksAfter; hide ThreadInv;
  }

  // An entry that a second registration of the same client pushes out of the map
  // is never disarmed, by no unregister call however late; so the promise above
  // is about entries that an unregister call erased, not about clients.
  lemma {:induction false} ReplacedNeverDisarmed(states: seq<State>, actions: seq<Action>, i: nat, j: nat, e: EntryId)
    requires Run(states, actions) && i < j < |states| && actions[i].Insert?
    requires e in states[i].writers.Values && e !in states[i + 1].writers.Values
    ensures Abandoned(states[j], e)
    decreases j
  {
    hide Apply; hide Enabled; hide Inv; hide Abandoned;
    RunKeepsInv(states, actions, j - 1);
    assert states[j - 1 + 1] == Apply(states[j - 1], actions[j - 1]) && Enabled(states[j - 1], actions[j - 1]);
    if i + 1 == j {
      ReplacedIsAbandoned(states[i], actions[i], e);
    } else {
      ReplacedNeverDisarmed(states, actions, i, j - 1, e);
      AbandonedStays(states[j - 1], actions[j - 1], e);
    }
  }

  // Thread t has erased the entry and is going to disarm it, if it has not done so yet.
  ghost predicate Doomed(s: State, e: EntryId, t: Tid) {
    && e in s.armed
    && (s.armed[e] ==>
          t in s.threads && (s.threads[t].AboutToDisarm? || s.threads[t].Disarming?) && s.threads[t].entry == e)
  }

  lemma ErasedIsDoomed(s: State, a: Action, e: EntryId)
    requires Inv(s) && Enabled(s, a) && e in s.writers.Values && e !in Apply(s, a).writers.Values && !a.Insert?
    ensures Doomed(Apply(s, a), e, a.t)
  {
    hide LockInv; hide ThreadInv; hide WrittenAfter; hide LocksAfter;
    var c :| c in s.writers && s.writers[c] == e;
    assert c !in Apply(s, a).writers;
  }

  lemma DoomedStays(s: State, a: Action, e: EntryId, t: Tid)
    requires Enabled(s, a) && Doomed(s, e, t)
    ensures Doomed(Apply(s, a), e, t)
  {
    hide LocksAfter; hide WrittenAfter; hide WritersAfter; hide IsArmed;
  }

  lemma {:induction false} ErasedStaysDoomed(states: seq<State>, actions: seq<Action>, i: nat, j: nat, e: EntryId)
    requires Run(states, actions) && i < j < |states| && !actions[i].Insert?
    requires e in states[i].writers.Values && e !in states[i + 1].writers.Values
    ensures Doomed(states[j], e, actions[i].t)
    decreases j
  {
    hide Apply; hide Enabled; hide Inv; hide Doomed;
    RunKeepsInv(states, actions, i);
    assert states[j - 1 + 1] == Apply(states[j - 1], actions[j - 1]) && Enabled(states[j - 1], actions[j - 1]);
    if i + 1 == j {
      ErasedIsDoomed(states[i], actions[i], e);
    } else {
      ErasedStaysDoomed(states, actions, i, j - 1, e);
      DoomedStays(states[j - 1], actions[j - 1], e, actions[i].t);
    }
  }

  // An entry that has left the map is left armed for ever exactly if it was pushed
  // out by another registration; one that was erased is disarmed or about to be.
  lemma AbandonedIffReplaced(states: seq<State>, actions: seq<Action>, i: nat, j: nat, e: EntryId)
    requires Run(states, actions) && i < j < |states|
    requires e in states[i].writers.Values && e !in states[i + 1].writers.Values
    ensures Abandoned(states[j], e) <==> actions[i].Insert?
  {
    if actions[i].Insert? {
      ReplacedNeverDisarmed(states, actions, i, j, e);
    } else {
      ErasedStaysDoomed(states, actions, i, j, e);
      hide Run;
    }
  }

  // A run that has got to s.
  ghost predicate RunTo(states: seq<State>, actions: seq<Action>, s: State) {
    Run(states, actions) && states[|actions|] == s
  }

  lemma StepTo(states: seq<State>, actions: seq<Action>, s: State, a: Action)
    returns (longer: seq<State>, more: seq<Action>)
    requires RunTo(states, actions, s) && Enabled(s, a)
    ensures RunTo(longer, more, Apply(s, a)) && longer == states + [Apply(s, a)] && more == actions + [a]
  {
    hide Enabled; hide Apply; hide Initial;
    longer, more := states + [Apply(s, a)], actions + [a];
  }

  // Two registrations of one client do this.
  lemma SecondRegistrationReplaces(c: ClientId, e: EntryId, f: EntryId, t: Tid, u: Tid)
    returns (states: seq<State>, actions: seq<Action>)
    requires e != f && t != u
    ensures Run(states, actions) && |states| == 5 && actions[3] == Insert(u)
    ensures e in states[3].writers.Values && e !in states[4].writers.Values && Abandoned(states[4], e)
  {
    var s0 := State(map[], map[], map[], map[], map[]);
    var s1 := Apply(s0, Spawn(t, Registering(c, e)));
    var s2 := Apply(s1, Insert(t));
    var s3 := Apply(s2, Spawn(u, Registering(c, f)));
    states, actions := StepTo([s0], [], s0, Spawn(t, Registering(c, e)));
    states, actions := StepTo(states, actions, s1, Insert(t));
    states, actions := StepTo(states, actions, s2, Spawn(u, Registering(c, f)));
    states, actions := StepTo(states, actions, s3, Insert(u));
    hide Run;
    assert s3.writers[c] == e && states[4].writers == map[c := f];
    ReplacedNeverDisarmed(states, actions, 3, 4, e);
  }

  // ----- Overlapping sends -----

  // A publisher takes the entry's lock, writes, and gives the lock back.
  lemma WritesOut(states: seq<State>, actions: seq<Action>, s: State, t: Tid, e: EntryId, event: ChatEvent)
    returns (longer: seq<State>, more: seq<Action>, end: State)
    requires RunTo(states, actions, s) && t in s.threads && s.threads[t] == Writing(event, {e})
    requires e !in s.locks && IsArmed(s, e) && e in s.written
    ensures RunTo(longer, more, end) && actions <= more
    ensures end == s.(written := s.written[e := s.written[e] + [event]], threads := s.threads[t := Writing(event, {})])
  {
    hide RunTo;
    var a, b := Apply(s, Lock(t, e)), Apply(Apply(s, Lock(t, e)), Begin(t));
    longer, more := StepTo(states, actions, s, Lock(t, e));
    longer, more := StepTo(longer, more, a, Begin(t));
    longer, more := StepTo(longer, more, b, End(t));
    longer, more := StepTo(longer, more, Apply(b, End(t)), Unlock(t));
    end := Apply(Apply(b, End(t)), Unlock(t));
    assert {e} - {e} == {};
    assert s.locks[e := t] - {e} == s.locks;
  }

  // A publisher begins, and looks its recipient up.
  lemma Begins(states: seq<State>, actions: seq<Action>, s: State, c: ClientId, event: ChatEvent, t: Tid)
    returns (longer: seq<State>, more: seq<Action>, end: State)
    requires RunTo(states, actions, s) && c in s.writers && t !in s.threads
    ensures RunTo(longer, more, end) && more == actions + [Spawn(t, Collecting({c}, event)), Collect(t)]
    ensures end == s.(threads := s.threads[t := Writing(event, {s.writers[c]})])
  {
    hide RunTo;
    var a := Spawn(t, Collecting({c}, event));
    longer, more := StepTo(states, actions, s, a);
    longer, more := StepTo(longer, more, Apply(s, a), Collect(t));
    end := Apply(Apply(s, a), Collect(t));
    var mid := Apply(s, a);
    assert (set d | d in mid.writers && d in mid.threads[t].recipients :: mid.writers[d]) == {s.writers[c]};
    assert mid.threads[t := Writing(event, {s.writers[c]})] == s.threads[t := Writing(event, {s.writers[c]})];
  }

  // Wherever a run has got to, two publishers that have looked up the same subscriber
  // can write in either order: what the second has to say is read first.
  lemma PublishesCanOvertake(states: seq<State>, actions: seq<Action>, s: State, c: ClientId, first: ChatEvent,
                             second: ChatEvent, t: Tid, u: Tid)
    returns (longer: seq<State>, more: seq<Action>, end: State)
    requires RunTo(states, actions, s) && c in s.writers && s.writers[c] !in s.locks && s.writers[c] in s.written
    requires IsArmed(s, s.writers[c]) && t != u && t !in s.threads && u !in s.threads
    ensures RunTo(longer, more, end)
    ensures actions + [Spawn(t, Collecting({c}, first)), Collect(t)]
                    + [Spawn(u, Collecting({c}, second)), Collect(u)] <= more
    ensures c in end.writers && end.writers[c] == s.writers[c] && s.writers[c] in end.written
    ensures end.written[s.writers[c]] == s.written[s.writers[c]] + [second] + [first]
  {
    hide RunTo;
    var e := s.writers[c];
    longer, more, end := Begins(states, actions, s, c, first, t);
    longer, more, end := Begins(longer, more, end, c, second, u);
    longer, more, end := WritesOut(longer, more, end, u, e, second);
    longer, more, end := WritesOut(longer, more, end, t, e, first);
  }
}

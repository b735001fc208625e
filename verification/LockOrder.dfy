/**
 Deadlock freedom. A thread runs a program of lock operations; the programs of
 the lock-taking functions of the server are given below, and a request is a
 sequence of them, since no use case holds a lock from one call to the next. A
 schedule fixes the data that each call sees and with it the program.

 Locks are granted in the least helpful way: a reader waits for every waiting
 writer, and nothing is promised about who of several waiters goes first.
 */
module LockOrder {
  import opened Core

  datatype Lock =
    | ListMap | ListEntry(entry: nat)       // the channel-list publisher's map, and one writer entry
    | ClientMap | ClientEntry(entry: nat)   // the client publisher's
    | RepoLock | RegistryLock | BuffersLock

  datatype Mode = Shared | Exclusive

  datatype Instr = Acquire(lock: Lock, mode: Mode) | Release(lock: Lock) | Work

  // A lock is only ever requested while all locks held have a lower rank.
  function Rank(l: Lock): (r: nat)
    ensures r < 3
  {
    if l.ListMap? || l.ClientMap? then 0 else if l.ListEntry? || l.ClientEntry? then 1 else 2
  }

  ghost predicate WellRanked(held: set<Lock>, program: seq<Instr>)
    decreases |program|
  {
    if program == [] then held == {}
    else
      match program[0]
      case Acquire(l, _) => (forall h :: h in held ==> Rank(h) < Rank(l)) && WellRanked(held + {l}, program[1..])
      case Release(l) => l in held && WellRanked(held - {l}, program[1..])
      case Work => WellRanked(held, program[1..])
  }

  // ----- The lock programs of the server -----

  // The two publishers take their locks alike.
  datatype Side = OfList | OfClients

  function MapLock(side: Side): Lock {
    if side.OfList? then ListMap else ClientMap
  }

  function EntryLock(side: Side, entry: nat): Lock {
    if side.OfList? then ListEntry(entry) else ClientEntry(entry)
  }

  datatype Section =
    | OfRepo(mode: Mode) | OfRegistry(mode: Mode) | OfBuffers(mode: Mode)
    | RegisterListWriter(entry: nat)
    | RegisterClientWriter
    | Unregister(side: Side, erased: Option<nat>)
    | WriteToAll(side: Side, targets: seq<nat>)
    | PublishToClient(found: Option<nat>, armed: bool)

  function Guarded(l: Lock, mode: Mode, inner: seq<Instr>): seq<Instr> {
    [Acquire(l, mode)] + inner + [Release(l)]
  }

  function WriteEach(side: Side, targets: seq<nat>): seq<Instr> {
    if targets == [] then []
    else Guarded(EntryLock(side, targets[0]), Exclusive, [Work]) + WriteEach(side, targets[1..])
  }

  function Program(section: Section): seq<Instr> {
    match section
    case OfRepo(mode) => Guarded(RepoLock, mode, [Work])
    case OfRegistry(mode) => Guarded(RegistryLock, mode, [Work])
    case OfBuffers(mode) => Guarded(BuffersLock, mode, [Work])
    case RegisterListWriter(entry) =>
      // The snapshot is read and written while the map is locked.
      Guarded(ListMap, Exclusive, Guarded(RepoLock, Shared, [Work]) + Guarded(ListEntry(entry), Exclusive, [Work]))
    case RegisterClientWriter => Guarded(ClientMap, Exclusive, [Work])
    case Unregister(side, erased) =>
      Guarded(MapLock(side), Exclusive, [Work])
      + if erased.Some? then Guarded(EntryLock(side, erased.value), Exclusive, [Work]) else []
    case WriteToAll(side, targets) => Guarded(MapLock(side), Shared, [Work]) + WriteEach(side, targets)
    case PublishToClient(found, armed) =>
      // The sender's name is looked up while the entry is locked.
      Guarded(ClientMap, Shared, [Work])
      + if found.None? then []
        else Guarded(ClientEntry(found.value), Exclusive,
                     if armed then Guarded(RegistryLock, Shared, [Work]) + [Work] else [])
  }

  function RequestProgram(sections: seq<Section>): seq<Instr> {
    if sections == [] then [] else Program(sections[0]) + RequestProgram(sections[1..])
  }

  lemma {:induction false} WellRankedThen(held: set<Lock>, p: seq<Instr>, q: seq<Instr>)
    requires WellRanked(held, p) && WellRanked({}, q)
    ensures WellRanked(held, p + q)
    decreases |p|
  {
    if p == [] {
      assert p + q == q;
    } else {
      assert (p + q)[1..] == p[1..] + q;
      var next := match p[0] case Acquire(l, _) => held + {l} case Release(l) => held - {l} case Work => held;
      WellRankedThen(next, p[1..], q);
    }
  }

  // What may run with nothing held may run with locks of lower rank held.
  ghost predicate AllAbove(h: Lock, p: seq<Instr>) {
    forall i :: 0 <= i < |p| && p[i].Acquire? ==> Rank(h) < Rank(p[i].lock)
  }

  lemma {:induction false} WellRankedInside(h: Lock, held: set<Lock>, p: seq<Instr>)
    requires WellRanked(held, p) && AllAbove(h, p) && h !in held
    ensures WellRanked(held + {h}, p + [Release(h)])
    decreases |p|
  {
    if p == [] {
      assert (p + [Release(h)])[1..] == [];
    } else {
      assert (p + [Release(h)])[1..] == p[1..] + [Release(h)];
      assert AllAbove(h, p[1..]) by {
        assert forall i :: 0 <= i < |p| - 1 ==> p[1..][i] == p[i + 1];
      }
      match p[0] {
        case Acquire(l, _) =>
          assert held + {h} + {l} == held + {l} + {h};
          WellRankedInside(h, held + {l}, p[1..]);
        case Release(l) =>
          assert held + {h} - {l} == held - {l} + {h};
          WellRankedInside(h, held - {l}, p[1..]);
        case Work => WellRankedInside(h, held, p[1..]);
      }
    }
  }

  lemma GuardedIsWellRanked(l: Lock, mode: Mode, inner: seq<Instr>)
    requires WellRanked({}, inner) && AllAbove(l, inner)
    ensures WellRanked({}, Guarded(l, mode, inner))
  {
    WellRankedInside(l, {}, inner);
    assert Guarded(l, mode, inner)[1..] == inner + [Release(l)];
  }

  lemma LeafIsWellRanked(l: Lock, mode: Mode)
    ensures WellRanked({}, [Work]) && WellRanked({}, []) && WellRanked({}, Guarded(l, mode, [Work]))
  {
    assert WellRanked({}, [Work]) by { assert [Work][1..] == []; }
    GuardedIsWellRanked(l, mode, [Work]);
  }

  lemma {:induction false} WriteEachIsWellRanked(side: Side, targets: seq<nat>)
    ensures WellRanked({}, WriteEach(side, targets))
  {
    if targets != [] {
      LeafIsWellRanked(EntryLock(side, targets[0]), Exclusive);
      WriteEachIsWellRanked(side, targets[1..]);
      WellRankedThen({}, Guarded(EntryLock(side, targets[0]), Exclusive, [Work]), WriteEach(side, targets[1..]));
    }
  }

  // Every function of the server takes its locks in rank order and gives them back.
  lemma SectionIsWellRanked(section: Section)
    ensures WellRanked({}, Program(section))
  {
    hide WellRanked; hide Guarded;
    match section {
      case OfRepo(mode) => LeafIsWellRanked(RepoLock, mode);
      case OfRegistry(mode) => LeafIsWellRanked(RegistryLock, mode);
      case OfBuffers(mode) => LeafIsWellRanked(BuffersLock, mode);
      case RegisterListWriter(entry) => SnapshotIsWellRanked(entry);
      case RegisterClientWriter => LeafIsWellRanked(ClientMap, Exclusive);
      case Unregister(side, erased) => ErasureIsWellRanked(side, erased);
      case WriteToAll(side, targets) =>
        LeafIsWellRanked(MapLock(side), Shared);
        WriteEachIsWellRanked(side, targets);
        WellRankedThen({}, Guarded(MapLock(side), Shared, [Work]), WriteEach(side, targets));
      case PublishToClient(found, armed) => DeliveryIsWellRanked(found, armed);
    }
  }

  lemma ErasureIsWellRanked(side: Side, erased: Option<nat>)
    ensures WellRanked({}, Program(Unregister(side, erased)))
  {
    hide WellRanked; hide Guarded;
    LeafIsWellRanked(MapLock(side), Exclusive);
    var second := if erased.Some? then Guarded(EntryLock(side, erased.value), Exclusive, [Work]) else [];
    if erased.Some? {
      LeafIsWellRanked(EntryLock(side, erased.value), Exclusive);
    }
    WellRankedThen({}, Guarded(MapLock(side), Exclusive, [Work]), second);
  }

  lemma SnapshotIsWellRanked(entry: nat)
    ensures WellRanked({}, Program(RegisterListWriter(entry)))
  {
    hide WellRanked;
    LeafIsWellRanked(RepoLock, Shared);
    LeafIsWellRanked(ListEntry(entry), Exclusive);
    var inner := Guarded(RepoLock, Shared, [Work]) + Guarded(ListEntry(entry), Exclusive, [Work]);
    WellRankedThen({}, Guarded(RepoLock, Shared, [Work]), Guarded(ListEntry(entry), Exclusive, [Work]));
    GuardedIsWellRanked(ListMap, Exclusive, inner);
  }

  lemma DeliveryIsWellRanked(found: Option<nat>, armed: bool)
    ensures WellRanked({}, Program(PublishToClient(found, armed)))
  {
    hide WellRanked;
    LeafIsWellRanked(ClientMap, Shared);
    LeafIsWellRanked(RegistryLock, Shared);
    if found.Some? {
      var inner := if armed then Guarded(RegistryLock, Shared, [Work]) + [Work] else [];
      if armed {
        WellRankedThen({}, Guarded(RegistryLock, Shared, [Work]), [Work]);
      }
      GuardedIsWellRanked(ClientEntry(found.value), Exclusive, inner);
      WellRankedThen({}, Guarded(ClientMap, Shared, [Work]), Guarded(ClientEntry(found.value), Exclusive, inner));
    } else {
      WellRankedThen({}, Guarded(ClientMap, Shared, [Work]), []);
    }
  }

  lemma {:induction false} RequestIsWellRanked(sections: seq<Section>)
    ensures WellRanked({}, RequestProgram(sections))
  {
    if sections != [] {
      SectionIsWellRanked(sections[0]);
      RequestIsWellRanked(sections[1..]);
      WellRankedThen({}, Program(sections[0]), RequestProgram(sections[1..]));
    }
  }

  // ----- Threads -----

  datatype Thread = Thread(held: map<Lock, Mode>, rest: seq<Instr>)

  type State = map<Tid, Thread>

  ghost predicate Unfinished(s: State, t: Tid) {
    t in s && s[t].rest != []
  }

  ghost predicate WaitsToWrite(s: State, t: Tid, l: Lock) {
    Unfinished(s, t) && s[t].rest[0] == Acquire(l, Exclusive)
  }

  ghost predicate Granted(s: State, t: Tid, l: Lock, mode: Mode) {
    && (forall u :: u in s && u != t && l in s[u].held ==> mode.Shared? && s[u].held[l].Shared?)
    && (mode.Shared? ==> forall u :: !WaitsToWrite(s, u, l))
  }

  ghost predicate CanStep(s: State, t: Tid) {
    && Unfinished(s, t)
    && (s[t].rest[0].Acquire? ==> Granted(s, t, s[t].rest[0].lock, s[t].rest[0].mode))
  }

  function Stepped(thread: Thread): Thread
    requires thread.rest != []
  {
    match thread.rest[0]
    case Acquire(l, mode) => Thread(thread.held[l := mode], thread.rest[1..])
    case Release(l) => Thread(thread.held - {l}, thread.rest[1..])
    case Work => Thread(thread.held, thread.rest[1..])
  }

  ghost function Step(s: State, t: Tid): State
    requires CanStep(s, t)
  {
    s[t := Stepped(s[t])]
  }

  ghost predicate Initial(s: State) {
    forall t :: t in s ==>
      s[t].held == map[] && exists sections :: s[t].rest == RequestProgram(sections)
  }

  ghost predicate Run(states: seq<State>, schedule: seq<Tid>) {
    && |states| == |schedule| + 1
    && Initial(states[0])
    && forall i :: 0 <= i < |schedule| ==>
         CanStep(states[i], schedule[i]) && states[i + 1] == Step(states[i], schedule[i])
  }

  // A lock held exclusively is held by one thread.
  ghost predicate Excludes(s: State) {
    forall t, u, l :: t in s && u in s && t != u && l in s[t].held && l in s[u].held ==>
      s[t].held[l].Shared? && s[u].held[l].Shared?
  }

  ghost predicate Ranked(s: State) {
    forall t :: t in s ==> WellRanked(s[t].held.Keys, s[t].rest)
  }

  ghost predicate Inv(s: State) {
    Excludes(s) && Ranked(s)
  }

  lemma SteppedIsRanked(thread: Thread)
    requires thread.rest != [] && WellRanked(thread.held.Keys, thread.rest)
    ensures WellRanked(Stepped(thread).held.Keys, Stepped(thread).rest)
  {
    match thread.rest[0] {
      case Acquire(l, mode) => assert Stepped(thread).held.Keys == thread.held.Keys + {l};
      case Release(l) => assert Stepped(thread).held.Keys == thread.held.Keys - {l};
      case Work =>
    }
  }

  lemma StepKeepsInv(s: State, t: Tid)
    requires Inv(s) && CanStep(s, t)
    ensures Inv(Step(s, t))
  {
    hide WellRanked;
    SteppedIsRanked(s[t]);
  }

  lemma {:induction false} RunKeepsInv(states: seq<State>, schedule: seq<Tid>, n: nat)
    requires Run(states, schedule) && n < |states|
    ensures Inv(states[n])
    decreases n
  {
    if n == 0 {
      forall t | t in states[0] ensures WellRanked(states[0][t].held.Keys, states[0][t].rest) {
        var sections :| states[0][t].rest == RequestProgram(sections);
        RequestIsWellRanked(sections);
        assert states[0][t].held.Keys == {};
      }
    } else {
      RunKeepsInv(states, schedule, n - 1);
      hide Inv; hide CanStep; hide Initial; hide Step;
      assert states[n - 1 + 1] == Step(states[n - 1], schedule[n - 1]);
      StepKeepsInv(states[n - 1], schedule[n - 1]);
    }
  }

  // ----- Progress -----

  // The rank a thread waits for; a thread that does not wait counts as above all.
  ghost function WaitRank(s: State, t: Tid): (r: nat)
    ensures r <= 3
  {
    if Unfinished(s, t) && s[t].rest[0].Acquire? then Rank(s[t].rest[0].lock) else 3
  }

  lemma HolderWaitsHigher(s: State, u: Tid, l: Lock)
    requires Inv(s) && u in s && l in s[u].held
    ensures Unfinished(s, u) && WaitRank(s, u) > Rank(l)
  {
    assert WellRanked(s[u].held.Keys, s[u].rest);
    assert l in s[u].held.Keys;
  }

  // Follow the chain of waiting from any unfinished thread: it climbs in rank and
  // so ends at a thread that can move.
  lemma {:induction false} SomeoneCanStep(s: State, t: Tid) returns (u: Tid)
    requires Inv(s) && Unfinished(s, t)
    ensures CanStep(s, u)
    decreases 3 - WaitRank(s, t)
  {
    if CanStep(s, t) {
      return t;
    }
    var l, mode := s[t].rest[0].lock, s[t].rest[0].mode;
    if v :| v in s && v != t && l in s[v].held {
      HolderWaitsHigher(s, v, l);
      u := SomeoneCanStep(s, v);
    } else {
      var w :| WaitsToWrite(s, w, l);
      if l in s[t].held {
        HolderWaitsHigher(s, t, l);
      }
      u := w;
    }
  }

  // No reachable state is stuck: as long as some thread has not finished, some
  // thread can take its next step.
  lemma NoDeadlock(states: seq<State>, schedule: seq<Tid>, n: nat)
    requires Run(states, schedule) && n < |states|
    ensures (exists t :: Unfinished(states[n], t)) <==> (exists t :: CanStep(states[n], t))
  {
    RunKeepsInv(states, schedule, n);
    if t :| Unfinished(states[n], t) {
      var u := SomeoneCanStep(states[n], t);
    }
  }

  // ----- Every run ends, with all threads finished -----

  ghost function Left(s: State): nat
    decreases |s|
  {
    if s == map[] then 0
    else
      var t :| t in s;
      assert |s - {t}| < |s| by { assert t in s.Keys && (s - {t}).Keys == s.Keys - {t}; }
      |s[t].rest| + Left(s - {t})
  }

  lemma {:induction false} LeftWithout(s: State, t: Tid)
    requires t in s
    ensures Left(s) == |s[t].rest| + Left(s - {t})
    decreases |s|
  {
    var u :| u in s && Left(s) == |s[u].rest| + Left(s - {u});
    if u != t {
      assert u in s.Keys && (s - {u}).Keys == s.Keys - {u};
      LeftWithout(s - {u}, t);
      LeftWithoutOther(s, t, u);
      assert s - {u} - {t} == s - {t} - {u};
    }
  }

  lemma LeftWithoutOther(s: State, t: Tid, u: Tid)
    requires t in s && u in s && t != u
    ensures Left(s - {t}) == |s[u].rest| + Left(s - {t} - {u})
    decreases |s|, 0
  {
    assert t in s.Keys && (s - {t}).Keys == s.Keys - {t};
    LeftWithout(s - {t}, u);
  }

  lemma StepLowersLeft(s: State, t: Tid)
    requires CanStep(s, t)
    ensures Left(Step(s, t)) == Left(s) - 1
  {
    LeftWithout(s, t);
    LeftWithout(Step(s, t), t);
    assert Step(s, t) - {t} == s - {t};
  }

  // Whatever the schedule, a run makes at most as many steps as the programs have
  // operations; a run that has made them all, and only such a run, is one in
  // which every thread has finished.
  lemma {:induction false} RunsAreBounded(states: seq<State>, schedule: seq<Tid>, n: nat)
    requires Run(states, schedule) && n < |states|
    ensures n + Left(states[n]) == Left(states[0])
    decreases n
  {
    if n > 0 {
      hide Initial; hide CanStep; hide Step; hide Left;
      RunsAreBounded(states, schedule, n - 1);
      assert states[n - 1 + 1] == Step(states[n - 1], schedule[n - 1]);
      StepLowersLeft(states[n - 1], schedule[n - 1]);
    }
  }

  lemma StuckMeansFinished(states: seq<State>, schedule: seq<Tid>)
    requires Run(states, schedule)
    requires forall t :: !CanStep(states[|schedule|], t)
    ensures forall t :: t in states[|schedule|] ==> states[|schedule|][t] == Thread(map[], [])
    ensures |schedule| <= Left(states[0])
  {
    var last := states[|schedule|];
    NoDeadlock(states, schedule, |schedule|);
    RunKeepsInv(states, schedule, |schedule|);
    RunsAreBounded(states, schedule, |schedule|);
    forall t | t in last ensures last[t] == Thread(map[], []) {
      assert !Unfinished(last, t);
      assert WellRanked(last[t].held.Keys, []);
      assert last[t].held.Keys == {};
    }
  }
}

/**
 What the calls of the channel-list publisher have done by the time they are over:
 a publish has written its event once to each entry it collected that was still
 armed, and an unregister has silenced the entry that it took out of the map.
 */
module ListRounds {
  import opened Core
  import opened ChannelRepository
  import List = ListPublisher
  import opened SnapshotProtocol

  // ----- A disarmed entry is silent -----

  ghost predicate IsDisarmed(s: State, e: EntryId) {
    e in s.armed && !s.armed[e] && e in s.streams
  }

  lemma DisarmedStaysSilent(s: State, a: Action, e: EntryId)
    requires Enabled(s, a) && IsDisarmed(s, e)
    ensures IsDisarmed(Apply(s, a), e) && Apply(s, a).streams[e] == s.streams[e]
  {
    hide RepoAfter; hide HolderAfter; hide WritersAfter; hide ThreadsAfter;
  }

  lemma {:induction false} SilentFrom(states: seq<State>, actions: seq<Action>, i: nat, j: nat, e: EntryId)
    requires Run(states, actions) && i <= j < |states| && IsDisarmed(states[i], e)
    ensures IsDisarmed(states[j], e) && states[j].streams[e] == states[i].streams[e]
    decreases j
  {
    if i < j {
      SilentFrom(states, actions, i, j - 1, e);
      RunStep(states, actions, j - 1);
      hide *;
      DisarmedStaysSilent(states[j - 1], actions[j - 1], e);
    }
  }

  lemma DisarmWorks(s: State, t: Tid, e: EntryId)
    requires Inv(s) && Enabled(s, Disarm(t)) && s.threads[t] == Disarming(e)
    ensures IsDisarmed(Apply(s, Disarm(t)), e) && Apply(s, Disarm(t)).streams[e] == s.streams[e]
  {
    assert ThreadEntries(s, t);
    hide LockInv; hide MappedInv; hide SnapshotFirst; hide TruthInv; hide CoverInv;
  }

  // Once an unregister call has disarmed its entry, nothing is written to it any
  // more, not even by a publisher that collected the entry before.
  lemma SilentAfterDisarm(states: seq<State>, actions: seq<Action>, i: nat, j: nat, t: Tid, e: EntryId)
    requires Run(states, actions) && i < j < |states|
    requires actions[i] == Disarm(t) && t in states[i].threads && states[i].threads[t] == Disarming(e)
    ensures e in states[i].streams && e in states[j].streams && states[j].streams[e] == states[i].streams[e]
  {
    RunKeepsInv(states, actions, i);
    RunStep(states, actions, i);
    DisarmWorks(states[i], t, e);
    hide Run; hide Apply; hide Inv;
    EntryHasStream(states[i], t, e);
    SilentFrom(states, actions, i + 1, j, e);
  }

  lemma EntryHasStream(s: State, t: Tid, e: EntryId)
    requires Inv(s) && t in s.threads && s.threads[t] == Disarming(e)
    ensures e in s.streams
  {
    assert ThreadEntries(s, t);
  }

  // ----- Entries that have left the map -----

  // Thread t is about to disarm the entry, if it has not done so yet.
  ghost predicate Doomed(s: State, e: EntryId, t: Tid) {
    IsDisarmed(s, e) || (t in s.threads && s.threads[t] == Disarming(e))
  }

  // Out of the map, armed, and nobody is going to disarm it.
  ghost predicate Abandoned(s: State, e: EntryId) {
    && e in s.armed && s.armed[e] && e !in s.writers.Values
    && forall t :: t in s.threads && (s.threads[t].Disarming? || s.threads[t].Registering?) ==> s.threads[t].entry != e
  }

  lemma ErasedIsDoomed(s: State, a: Action, e: EntryId)
    requires Enabled(s, a) && e in s.writers.Values && e !in Apply(s, a).writers.Values && !a.Insert?
    ensures Doomed(Apply(s, a), e, a.t) && a.Erase?
  {
    var c :| c in s.writers && s.writers[c] == e;
    assert c !in Apply(s, a).writers;
  }

  lemma DoomedStays(s: State, a: Action, e: EntryId, t: Tid)
    requires Inv(s) && Enabled(s, a) && Doomed(s, e, t)
    ensures Doomed(Apply(s, a), e, t)
  {
    if IsDisarmed(s, e) {
      DisarmedStaysSilent(s, a, e);
    } else if a == Disarm(t) {
      DisarmWorks(s, t, e);
    }
    hide Inv; hide IsDisarmed; hide RepoAfter; hide HolderAfter; hide WritersAfter; hide StreamsAfter; hide ArmedAfter;
  }

  lemma {:induction false} ErasedStaysDoomed(states: seq<State>, actions: seq<Action>, i: nat, j: nat, e: EntryId)
    requires Run(states, actions) && i < j < |states| && !actions[i].Insert?
    requires e in states[i].writers.Values && e !in states[i + 1].writers.Values
    ensures Doomed(states[j], e, actions[i].t)
    decreases j
  {
    hide *;
    RunStep(states, actions, i);
    ErasedIsDoomed(states[i], actions[i], e);
    if i + 1 < j {
      RunStep(states, actions, j - 1);
      RunKeepsInv(states, actions, j - 1);
      ErasedStaysDoomed(states, actions, i, j - 1, e);
      DoomedStays(states[j - 1], actions[j - 1], e, actions[i].t);
    }
  }

  lemma ReplacedIsAbandoned(s: State, a: Action, e: EntryId)
    requires Inv(s) && Enabled(s, a) && a.Insert? && e in s.writers.Values && e !in Apply(s, a).writers.Values
    ensures Abandoned(Apply(s, a), e)
  {
    hide LockInv; hide MappedInv; hide SnapshotFirst; hide TruthInv; hide CoverInv; hide RepoAfter; hide StreamsAfter;
    forall t | t in s.threads && (s.threads[t].Disarming? || s.threads[t].Registering?)
      ensures s.threads[t].entry != e
    {
      assert ThreadEntries(s, t);
    }
  }

  lemma AbandonedStays(s: State, a: Action, e: EntryId)
    requires Enabled(s, a) && Abandoned(s, e)
    ensures Abandoned(Apply(s, a), e)
  {
    hide RepoAfter; hide HolderAfter; hide StreamsAfter;
    forall x | x in Apply(s, a).writers.Values ensures x != e {
      var c :| c in Apply(s, a).writers && Apply(s, a).writers[c] == x;
      assert c in s.writers && s.writers[c] == x ==> x in s.writers.Values;
    }
  }

  lemma {:induction false} ReplacedStaysAbandoned(states: seq<State>, actions: seq<Action>, i: nat, j: nat, e: EntryId)
    requires Run(states, actions) && i < j < |states| && actions[i].Insert?
    requires e in states[i].writers.Values && e !in states[i + 1].writers.Values
    ensures Abandoned(states[j], e)
    decreases j
  {
    hide *;
    RunStep(states, actions, j - 1);
    RunKeepsInv(states, actions, j - 1);
    if i + 1 == j {
      ReplacedIsAbandoned(states[i], actions[i], e);
    } else {
      ReplacedStaysAbandoned(states, actions, i, j - 1, e);
      AbandonedStays(states[j - 1], actions[j - 1], e);
    }
  }

  // An entry that has left the map: if it was erased, its stream has ended, or a
  // thread is about to disarm it; if another registration pushed it out, neither
  // ever happens.
  lemma ErasedIsSilenced(states: seq<State>, actions: seq<Action>, i: nat, j: nat, e: EntryId)
    requires Run(states, actions) && i < j < |states|
    requires e in states[i].writers.Values && e !in states[i + 1].writers.Values
    ensures actions[i].Insert? || actions[i].Erase?
    ensures Abandoned(states[j], e) <==> actions[i].Insert?
    ensures actions[i].Erase? ==>
      || (actions[i].t in states[j].threads && states[j].threads[actions[i].t] == Disarming(e))
      || forall k :: j <= k < |states| ==>
           e in states[j].streams && e in states[k].streams && states[k].streams[e] == states[j].streams[e]
  {
    RunStep(states, actions, i);
    if actions[i].Insert? {
      ReplacedStaysAbandoned(states, actions, i, j, e);
    } else {
      ErasedIsDoomed(states[i], actions[i], e);
      ErasedStaysDoomed(states, actions, i, j, e);
      hide Run; hide Apply; hide Enabled;
      if IsDisarmed(states[j], e) {
        forall k | j <= k < |states|
          ensures e in states[j].streams && e in states[k].streams && states[k].streams[e] == states[j].streams[e]
        {
          SilentFrom(states, actions, j, k, e);
        }
      }
    }
  }

  // ----- What a publish has done -----

  ghost predicate Changes(s: State, a: Action, s': State, t: Tid, e: EntryId) {
    !a.Churn? && a.t == t && e in s.streams && (e !in s'.streams || s'.streams[e] != s.streams[e])
  }

  ghost predicate FindsDisarmed(s: State, a: Action, t: Tid, e: EntryId) {
    a == WriteOne(t, e) && e in s.armed && !s.armed[e]
  }

  // How often t has turned to e in the steps from h to n.
  ghost function Visits(actions: seq<Action>, h: nat, n: nat, t: Tid, e: EntryId): nat
    requires h <= n <= |actions|
    decreases n
  {
    if h == n then 0 else Visits(actions, h, n - 1, t, e) + One(actions[n - 1] == WriteOne(t, e))
  }

  ghost function Writes(states: seq<State>, actions: seq<Action>, h: nat, n: nat, t: Tid, e: EntryId): nat
    requires h <= n <= |actions| < |states|
    decreases n
  {
    if h == n then 0
    else Writes(states, actions, h, n - 1, t, e) + One(Changes(states[n - 1], actions[n - 1], states[n], t, e))
  }

  ghost function Skips(states: seq<State>, actions: seq<Action>, h: nat, n: nat, t: Tid, e: EntryId): nat
    requires h <= n <= |actions| < |states|
    decreases n
  {
    if h == n then 0
    else Skips(states, actions, h, n - 1, t, e) + One(FindsDisarmed(states[n - 1], actions[n - 1], t, e))
  }

  ghost predicate InRound(pc: Pc, targets: set<EntryId>, event: List.ListEvent) {
    pc.Finished? || (pc.Publishing? && pc.event == event && pc.targets <= targets)
  }

  // The thread has dealt with the entry.
  predicate Past(pc: Pc, targets: set<EntryId>, e: EntryId) {
    e in targets && (pc.Publishing? ==> e !in pc.targets)
  }

  ghost predicate Serves(s: State, a: Action, t: Tid, targets: set<EntryId>, event: List.ListEvent, e: EntryId)
    requires Enabled(s, a) && t in s.threads
  {
    var s' := Apply(s, a);
    && t in s'.threads && InRound(s'.threads[t], targets, event)
    && One(Past(s'.threads[t], targets, e)) == One(Past(s.threads[t], targets, e)) + One(a == WriteOne(t, e))
    && One(a == WriteOne(t, e)) == One(Changes(s, a, s', t, e)) + One(FindsDisarmed(s, a, t, e))
    && (Changes(s, a, s', t, e) ==> s'.streams == s.streams[e := s.streams[e] + [event]])
  }

  // Every entry that a thread is going to write to is known.
  lemma TargetsKnown(s: State, t: Tid)
    requires Inv(s) && t in s.threads && s.threads[t].Publishing?
    ensures forall e :: e in s.threads[t].targets ==> e in s.streams && e in s.armed
  {
    assert ThreadEntries(s, t);
    hide LockInv; hide MappedInv; hide SnapshotFirst; hide TruthInv; hide CoverInv;
  }

  lemma WriteServes(s: State, t: Tid, target: EntryId, targets: set<EntryId>, event: List.ListEvent, e: EntryId)
    requires Inv(s) && Enabled(s, WriteOne(t, target)) && t in s.threads && InRound(s.threads[t], targets, event)
    ensures Serves(s, WriteOne(t, target), t, targets, event, e)
  {
    TargetsKnown(s, t);
    assert forall x :: x in s.streams ==> s.streams[x] + [event] != s.streams[x];
    hide Inv; hide RepoAfter; hide HolderAfter; hide WritersAfter; hide ArmedAfter;
  }

  lemma NothingServed(s: State, a: Action, t: Tid, targets: set<EntryId>, event: List.ListEvent, e: EntryId)
    requires Enabled(s, a) && t in s.threads && InRound(s.threads[t], targets, event)
    requires !(a.WriteOne? && a.t == t)
    ensures Serves(s, a, t, targets, event, e)
  {
    hide RepoAfter; hide HolderAfter; hide WritersAfter; hide ArmedAfter;
  }

  lemma ServingStep(s: State, a: Action, t: Tid, targets: set<EntryId>, event: List.ListEvent, e: EntryId)
    requires Inv(s) && Enabled(s, a) && t in s.threads && InRound(s.threads[t], targets, event)
    ensures Serves(s, a, t, targets, event, e)
  {
    hide Inv; hide InRound; hide Serves; hide Enabled;
    if a.WriteOne? && a.t == t {
      WriteServes(s, t, a.target, targets, event, e);
    } else {
      NothingServed(s, a, t, targets, event, e);
    }
  }

  // Before it has collected its targets.
  lemma IdleStep(s: State, a: Action, t: Tid, event: List.ListEvent, e: EntryId)
    requires Enabled(s, a) && t in s.threads && s.threads[t] == AboutToPublish(event)
    ensures var s' := Apply(s, a);
      && t in s'.threads && !Changes(s, a, s', t, e) && !FindsDisarmed(s, a, t, e) && a != WriteOne(t, e)
      && s'.threads[t] == if a == Collect(t) then Publishing(event, s.writers.Values) else s.threads[t]
  {
    hide RepoAfter; hide HolderAfter; hide WritersAfter; hide ArmedAfter;
  }

  ghost predicate OnlyAppends(states: seq<State>, actions: seq<Action>, h: nat, i: nat, n: nat, t: Tid, e: EntryId,
                              event: List.ListEvent)
    requires n <= |actions| < |states|
  {
    forall j :: h <= j < n && Changes(states[j], actions[j], states[j + 1], t, e) ==>
      i < j && states[j + 1].streams == states[j].streams[e := states[j].streams[e] + [event]]
  }

  ghost predicate Rounding(states: seq<State>, actions: seq<Action>, h: nat, i: nat, n: nat, t: Tid,
                           event: List.ListEvent, e: EntryId)
    requires h <= n <= |actions| < |states|
  {
    && h <= i < n && actions[i] == Collect(t) && (forall j :: h <= j < i ==> actions[j] != Collect(t))
    && t in states[n].threads && InRound(states[n].threads[t], states[i].writers.Values, event)
    && Visits(actions, h, n, t, e) == One(Past(states[n].threads[t], states[i].writers.Values, e))
    && Writes(states, actions, h, n, t, e) + Skips(states, actions, h, n, t, e) == Visits(actions, h, n, t, e)
    && OnlyAppends(states, actions, h, i, n, t, e, event)
  }

  ghost predicate Waiting(states: seq<State>, actions: seq<Action>, h: nat, n: nat, t: Tid, event: List.ListEvent,
                          e: EntryId)
    requires h <= n <= |actions| < |states|
  {
    && t in states[n].threads && states[n].threads[t] == AboutToPublish(event)
    && Visits(actions, h, n, t, e) == 0 && Writes(states, actions, h, n, t, e) == 0
    && Skips(states, actions, h, n, t, e) == 0 && forall j :: h <= j < n ==> actions[j] != Collect(t)
  }

  lemma {:induction false} NothingChanged(states: seq<State>, actions: seq<Action>, h: nat, n: nat, t: Tid, e: EntryId)
    requires h <= n <= |actions| < |states| && Writes(states, actions, h, n, t, e) == 0
    ensures forall j :: h <= j < n ==> !Changes(states[j], actions[j], states[j + 1], t, e)
    decreases n
  {
    hide Changes;
    if h < n {
      NothingChanged(states, actions, h, n - 1, t, e);
    }
  }

  lemma CountsGrow(states: seq<State>, actions: seq<Action>, h: nat, n: nat, t: Tid, e: EntryId)
    requires h < n <= |actions| < |states|
    ensures Visits(actions, h, n, t, e) == Visits(actions, h, n - 1, t, e) + One(actions[n - 1] == WriteOne(t, e))
    ensures Writes(states, actions, h, n, t, e)
      == Writes(states, actions, h, n - 1, t, e) + One(Changes(states[n - 1], actions[n - 1], states[n], t, e))
    ensures Skips(states, actions, h, n, t, e)
      == Skips(states, actions, h, n - 1, t, e) + One(FindsDisarmed(states[n - 1], actions[n - 1], t, e))
  {
    hide Changes; hide FindsDisarmed;
  }

  lemma WaitingGoesOn(states: seq<State>, actions: seq<Action>, h: nat, n: nat, t: Tid, event: List.ListEvent,
                      e: EntryId)
    requires Run(states, actions) && h < n <= |actions| < |states|
    requires Waiting(states, actions, h, n - 1, t, event, e)
    ensures if actions[n - 1] == Collect(t) then Rounding(states, actions, h, n - 1, n, t, event, e)
            else Waiting(states, actions, h, n, t, event, e)
  {
    RunStep(states, actions, n - 1);
    hide Run; hide Apply; hide Enabled; hide Changes; hide FindsDisarmed;
    IdleStep(states[n - 1], actions[n - 1], t, event, e);
    if actions[n - 1] == Collect(t) {
      NothingChanged(states, actions, h, n, t, e);
    }
  }

  lemma AppendsMore(states: seq<State>, actions: seq<Action>, h: nat, i: nat, n: nat, t: Tid, e: EntryId,
                    event: List.ListEvent)
    requires h < n <= |actions| < |states| && i < n - 1 && OnlyAppends(states, actions, h, i, n - 1, t, e, event)
    requires Changes(states[n - 1], actions[n - 1], states[n], t, e) ==>
      states[n].streams == states[n - 1].streams[e := states[n - 1].streams[e] + [event]]
    ensures OnlyAppends(states, actions, h, i, n, t, e, event)
  {
    hide Changes;
  }

  lemma RoundGoesOn(states: seq<State>, actions: seq<Action>, h: nat, i: nat, n: nat, t: Tid, event: List.ListEvent,
                    e: EntryId)
    requires Run(states, actions) && h < n <= |actions| < |states|
    requires Rounding(states, actions, h, i, n - 1, t, event, e)
    ensures Rounding(states, actions, h, i, n, t, event, e)
  {
    RunStep(states, actions, n - 1);
    RunKeepsInv(states, actions, n - 1);
    hide Run; hide Apply; hide Enabled; hide Inv; hide Changes; hide FindsDisarmed; hide InRound; hide Past;
    hide OnlyAppends; hide Visits; hide Writes; hide Skips; hide One;
    CountsGrow(states, actions, h, n, t, e);
    ServingStep(states[n - 1], actions[n - 1], t, states[i].writers.Values, event, e);
    AppendsMore(states, actions, h, i, n, t, e, event);
  }

  lemma {:induction false} RoundSoFar(states: seq<State>, actions: seq<Action>, h: nat, n: nat, t: Tid,
                                      event: List.ListEvent, e: EntryId)
    returns (i: nat)
    requires Run(states, actions) && h <= n <= |actions| < |states|
    requires t in states[h].threads && states[h].threads[t] == AboutToPublish(event)
    ensures Waiting(states, actions, h, n, t, event, e) || Rounding(states, actions, h, i, n, t, event, e)
    decreases n
  {
    i := h;
    if h == n {
      hide Run; hide InRound; hide OnlyAppends;
    } else {
      hide Run; hide InRound; hide OnlyAppends;
      i := RoundSoFar(states, actions, h, n - 1, t, event, e);
      hide Waiting; hide Rounding;
      if Waiting(states, actions, h, n - 1, t, event, e) {
        WaitingGoesOn(states, actions, h, n, t, event, e);
        i := n - 1;
      } else {
        RoundGoesOn(states, actions, h, i, n, t, event, e);
      }
    }
  }

  // The thread, which collected at i, turned to the entry exactly once if the entry was
  // mapped then, and not at all otherwise; each time it appended the event or found the
  // entry disarmed; and it changed the stream in no other way.
  ghost predicate ServedOnce(states: seq<State>, actions: seq<Action>, h: nat, i: nat, n: nat, t: Tid,
                             event: List.ListEvent, e: EntryId)
    requires h <= i < n <= |actions| < |states|
  {
    && Visits(actions, h, n, t, e) == One(exists c :: c in states[i].writers && states[i].writers[c] == e)
    && Writes(states, actions, h, n, t, e) + Skips(states, actions, h, n, t, e) == Visits(actions, h, n, t, e)
    && OnlyAppends(states, actions, h, i, n, t, e, event)
  }

  // In every run, when the publish of a creation or a count is over, this holds of
  // every entry.
  lemma EachIsServedOnce(states: seq<State>, actions: seq<Action>, h: nat, n: nat, t: Tid, event: List.ListEvent)
    returns (i: nat)
    requires Run(states, actions) && h <= n <= |actions|
    requires t in states[h].threads && states[h].threads[t] == AboutToPublish(event)
    requires t in states[n].threads && states[n].threads[t].Finished?
    ensures h <= i < n && actions[i] == Collect(t)
    ensures forall e :: ServedOnce(states, actions, h, i, n, t, event, e)
  {
    assert |states| == |actions| + 1;
    hide Run; hide InRound; hide OnlyAppends; hide FindsDisarmed;
    i := RoundSoFar(states, actions, h, n, t, event, EntryId(0));
    forall e ensures ServedOnce(states, actions, h, i, n, t, event, e) {
      var i' := RoundSoFar(states, actions, h, n, t, event, e);
      assert i' == i;
    }
  }

  // ----- Nothing stops a thread but the map's lock -----

  ghost predicate CanMove(s: State, t: Tid) {
    exists a: Action :: !a.Spawn? && !a.Churn? && a.t == t && Enabled(s, a)
  }

  // It needs the map's lock, and a registration of another thread holds it.
  ghost predicate Blocked(s: State, t: Tid)
    requires t in s.threads
  {
    && s.holder.Some? && s.holder.value != t
    && (s.threads[t].AboutToPublish? || s.threads[t].Registering? || s.threads[t].Unregistering?)
  }

  // The id drawn for a new channel is new.
  ghost predicate DrawnNew(s: State, t: Tid)
    requires t in s.threads
  {
    s.threads[t].Creating? ==> s.threads[t].newId !in s.repo.byId
  }

  lemma OwnsMap(s: State, t: Tid)
    requires Inv(s) && t in s.threads
    ensures HoldsMap(s.threads[t]) <==> s.holder == Some(t)
    ensures s.holder.Some? ==> s.holder.value in s.threads && HoldsMap(s.threads[s.holder.value])
  {
    hide EntryInv; hide MappedInv; hide SnapshotFirst; hide TruthInv; hide CoverInv;
  }

  lemma SomeList(repo: Repo) returns (listed: seq<ChannelRecord>)
    ensures Lists(listed, repo)
  {
    var order := AnyOrder(repo.byId.Keys);
    EnumeratesLength(order, repo.byId.Keys);
    assert forall i :: 0 <= i < |order| ==> order[i] in Elems(order);
    listed := seq(|order|, i requires 0 <= i < |order| => repo.byId[order[i]]);
    forall id | id in repo.byId ensures repo.byId[id] in listed {
      assert id in Elems(order);
      var i :| 0 <= i < |order| && order[i] == id;
      assert listed[i] == repo.byId[id];
    }
    assert |repo.byId.Keys| == |repo.byId|;
  }

  lemma NextMove(s: State, t: Tid) returns (a: Action)
    requires t in s.threads && DrawnNew(s, t) && !s.threads[t].Finished? && !Blocked(s, t)
    requires HoldsMap(s.threads[t]) <==> s.holder == Some(t)
    ensures !a.Spawn? && !a.Churn? && a.t == t && Enabled(s, a)
  {
    match s.threads[t] {
      case Creating(_, _) => a := Create(t);
      case AboutToPublish(_) => a := Collect(t);
      case Publishing(_, targets) =>
        a := DonePublishing(t);
        if targets != {} {
          var e :| e in targets;
          a := WriteOne(t, e);
        }
      case Registering(_, _) => a := Insert(t);
      case Listing(_, _) =>
        var listed := SomeList(s.repo);
        a := ListAll(t, listed);
      case Sending(_, _, _) => a := Send(t);
      case Releasing => a := Release(t);
      case Unregistering(_) => a := Erase(t);
      case Disarming(_) => a := Disarm(t);
    }
  }

  lemma CannotMove(s: State, t: Tid, a: Action)
    requires t in s.threads && (s.threads[t].Finished? || Blocked(s, t)) && !a.Spawn? && !a.Churn? && a.t == t
    ensures !Enabled(s, a)
  {
  }

  lemma MovesUnlessBlocked(s: State, t: Tid)
    requires Inv(s) && t in s.threads && DrawnNew(s, t)
    ensures CanMove(s, t) <==> !s.threads[t].Finished? && !Blocked(s, t)
  {
    OwnsMap(s, t);
    hide Inv; hide Enabled; hide Blocked;
    if !s.threads[t].Finished? && !Blocked(s, t) {
      var a := NextMove(s, t);
    } else {
      forall a: Action | !a.Spawn? && !a.Churn? && a.t == t ensures !Enabled(s, a) {
        CannotMove(s, t, a);
      }
    }
  }

  // In every reachable state: a call that is not over waits only for the map's lock while
  // a registration of another thread holds it, and that thread can move.
  lemma NeverStuck(states: seq<State>, actions: seq<Action>, n: nat, t: Tid)
    requires Run(states, actions) && n < |states| && t in states[n].threads && DrawnNew(states[n], t)
    ensures var s := states[n];
      && (CanMove(s, t) <==> !s.threads[t].Finished? && !Blocked(s, t))
      && (Blocked(s, t) ==> s.holder.value in s.threads && CanMove(s, s.holder.value))
  {
    RunKeepsInv(states, actions, n);
    var s := states[n];
    hide Run;
    MovesUnlessBlocked(s, t);
    if Blocked(s, t) {
      OwnsMap(s, t);
      hide Inv; hide CanMove;
      MovesUnlessBlocked(s, s.holder.value);
    }
  }
}

/**
 The channel-list publisher under concurrency. Any number of threads create
 channels, register, unregister and publish; each lock-protected section is one
 step, and a registration, which holds the map's lock over several sections, is
 several.

 A thread that holds shared_ptr copies of writer entries keeps them as a set of
 targets; an entry may be erased from the map, or disarmed, before its turn comes.
 */
module SnapshotProtocol {
  import opened Core
  import opened ChannelRepository
  import opened ListPublisher
  import opened ChannelsStore

  // Where a thread stands, with its local variables.
  datatype Pc =
    | Creating(name: ChannelName, newId: ChannelId)      // about to create in the repository
    | AboutToPublish(event: ListEvent)                   // about to collect the targets
    | Publishing(event: ListEvent, targets: set<EntryId>)
    | Registering(client: ClientId, entry: EntryId)      // about to lock the map and insert
    | Listing(client: ClientId, entry: EntryId)          // holds the map's lock
    | Sending(client: ClientId, entry: EntryId, snapshot: seq<Summary>)  // holds the map's lock
    | Releasing                                          // holds the map's lock
    | Unregistering(client: ClientId)
    | Disarming(entry: EntryId)
    | Finished

  datatype State = State(
    repo: Repo,
    holder: Option<Tid>,                // who holds the map's lock exclusively
    writers: map<ClientId, EntryId>,
    armed: map<EntryId, bool>,          // every entry ever made: does it still point at its writer?
    streams: map<EntryId, seq<ListEvent>>,
    threads: map<Tid, Pc>)

  predicate HoldsMap(pc: Pc) {
    pc.Listing? || pc.Sending? || pc.Releasing?
  }

  // ----- Steps -----

  datatype Action =
    | Spawn(t: Tid, pc: Pc)
    | Churn(repo: Repo)                          // joins, leaves, sweeps: members change, channels do not
    | Create(t: Tid)
    | Collect(t: Tid)
    | WriteOne(t: Tid, target: EntryId)
    | DonePublishing(t: Tid)
    | Insert(t: Tid)
    | ListAll(t: Tid, listed: seq<ChannelRecord>)
    | Send(t: Tid)
    | Release(t: Tid)
    | Erase(t: Tid)
    | Disarm(t: Tid)

  predicate StartPc(pc: Pc) {
    pc.Creating? || pc.Registering? || pc.Unregistering? || (pc.AboutToPublish? && pc.event.CountChanged?)
  }

  ghost predicate Enabled(s: State, a: Action) {
    if a.Spawn? then
      && a.t !in s.threads && StartPc(a.pc)
      && (a.pc.Registering? ==> a.pc.entry !in s.armed && a.pc.entry !in s.streams)
    else if a.Churn? then s.repo.KeptBy(a.repo) && a.repo.KeptBy(s.repo) && a.repo.Inv()
    else
      && a.t in s.threads
      && match a
         case Create(t) => s.threads[t].Creating? && s.threads[t].newId !in s.repo.byId
         case Collect(t) => s.threads[t].AboutToPublish? && s.holder == None
         case WriteOne(t, target) => s.threads[t].Publishing? && target in s.threads[t].targets
         case DonePublishing(t) => s.threads[t].Publishing? && s.threads[t].targets == {}
         case Insert(t) => s.threads[t].Registering? && s.holder == None
         case ListAll(t, listed) => s.threads[t].Listing? && Lists(listed, s.repo)
         case Send(t) => s.threads[t].Sending?
         case Release(t) => s.threads[t].Releasing?
         case Erase(t) => s.threads[t].Unregistering? && s.holder == None
         case Disarm(t) => s.threads[t].Disarming?
         case _ => true
  }

  // Write under the entry's lock: nothing happens to a disarmed entry.
  function Written(s: State, e: EntryId, event: ListEvent): map<EntryId, seq<ListEvent>> {
    if e in s.armed && s.armed[e] && e in s.streams then s.streams[e := s.streams[e] + [event]] else s.streams
  }

  // Where the moving thread stands after its step.
  ghost function PcAfter(s: State, a: Action): Pc
    requires Enabled(s, a) && !a.Churn?
  {
    match a
    case Spawn(t, pc) => pc
    case Create(t) =>
      var r := s.repo.Create(s.threads[t].name, s.threads[t].newId).1;
      if r.Err? then Finished else AboutToPublish(Created(Summarise(r.value)))
    case Collect(t) => Publishing(s.threads[t].event, s.writers.Values)
    case WriteOne(t, target) => Publishing(s.threads[t].event, s.threads[t].targets - {target})
    case Insert(t) => Listing(s.threads[t].client, s.threads[t].entry)
    case ListAll(t, listed) => Sending(s.threads[t].client, s.threads[t].entry, SummariseAll(listed))
    case Send(t) => Releasing
    case Erase(t) =>
      if s.threads[t].client in s.writers then Disarming(s.writers[s.threads[t].client]) else Finished
    case _ => Finished
  }

  ghost function ThreadsAfter(s: State, a: Action): map<Tid, Pc>
    requires Enabled(s, a)
  {
    if a.Churn? then s.threads else s.threads[a.t := PcAfter(s, a)]
  }

  ghost function RepoAfter(s: State, a: Action): Repo
    requires Enabled(s, a)
  {
    match a
    case Churn(repo) => repo
    case Create(t) => s.repo.Create(s.threads[t].name, s.threads[t].newId).0
    case _ => s.repo
  }

  ghost function HolderAfter(s: State, a: Action): Option<Tid>
    requires Enabled(s, a)
  {
    match a
    case Insert(t) => Some(t)
    case Release(t) => None
    case _ => s.holder
  }

  ghost function WritersAfter(s: State, a: Action): map<ClientId, EntryId>
    requires Enabled(s, a)
  {
    match a
    case Insert(t) => s.writers[s.threads[t].client := s.threads[t].entry]
    case Erase(t) => s.writers - {s.threads[t].client}
    case _ => s.writers
  }

  ghost function ArmedAfter(s: State, a: Action): map<EntryId, bool>
    requires Enabled(s, a)
  {
    match a
    case Spawn(t, pc) => if pc.Registering? then s.armed[pc.entry := true] else s.armed
    case Disarm(t) => s.armed[s.threads[t].entry := false]
    case _ => s.armed
  }

  ghost function StreamsAfter(s: State, a: Action): map<EntryId, seq<ListEvent>>
    requires Enabled(s, a)
  {
    match a
    case Spawn(t, pc) => if pc.Registering? then s.streams[pc.entry := []] else s.streams
    case WriteOne(t, target) => Written(s, target, s.threads[t].event)
    case Send(t) => Written(s, s.threads[t].entry, Snapshot(s.threads[t].snapshot))
    case _ => s.streams
  }

  ghost function Apply(s: State, a: Action): State
    requires Enabled(s, a)
  {
    State(RepoAfter(s, a), HolderAfter(s, a), WritersAfter(s, a), ArmedAfter(s, a), StreamsAfter(s, a),
          ThreadsAfter(s, a))
  }

  ghost predicate Initial(s: State) {
    && s.repo.Inv() && s.holder == None
    && s.writers == map[] && s.armed == map[] && s.streams == map[] && s.threads == map[]
  }

  ghost predicate Run(states: seq<State>, actions: seq<Action>) {
    && |states| == |actions| + 1
    && Initial(states[0])
    && forall i :: 0 <= i < |actions| ==>
         Enabled(states[i], actions[i]) && states[i + 1] == Apply(states[i], actions[i])
  }

  // ----- The invariant -----

  // The map's lock is held by exactly the thread that is inside a registration.
  ghost predicate LockInv(s: State) {
    && (s.holder.Some? ==> s.holder.value in s.threads)
    && forall t :: t in s.threads ==> (HoldsMap(s.threads[t]) <==> s.holder == Some(t))
  }

  // The entry that a thread has not yet put into the map, or has put there but
  // not yet written to.
  predicate Unwritten(pc: Pc) {
    pc.Registering? || pc.Listing? || pc.Sending?
  }

  // Mapped entries are armed, and no two clients share one.
  ghost predicate MapEntries(s: State) {
    && s.armed.Keys == s.streams.Keys
    && (forall c :: c in s.writers ==> s.writers[c] in s.armed && s.armed[s.writers[c]])
    && (forall c, d :: c in s.writers && d in s.writers && s.writers[c] == s.writers[d] ==> c == d)
  }

  // No two threads are about to write the first event of the same entry.
  ghost predicate OwnEntries(s: State) {
    forall t, u :: t in s.threads && u in s.threads && t != u && Unwritten(s.threads[t]) && Unwritten(s.threads[u])
      ==> s.threads[t].entry != s.threads[u].entry
  }

  ghost predicate EntryInv(s: State) {
    && MapEntries(s) && OwnEntries(s)
    && (forall t :: t in s.threads ==> ThreadEntries(s, t))
  }

  ghost predicate ThreadEntries(s: State, t: Tid)
    requires t in s.threads
  {
    var pc := s.threads[t];
    && (Unwritten(pc) ==>
          pc.entry in s.armed && s.armed[pc.entry] && pc.entry in s.streams && s.streams[pc.entry] == [])
    && (pc.Registering? ==> pc.entry !in s.writers.Values)
    && (pc.Listing? || pc.Sending? ==> pc.client in s.writers && s.writers[pc.client] == pc.entry)
    && (pc.Publishing? ==> forall e :: e in pc.targets ==> e in s.streams && s.streams[e] != [])
    && (pc.Disarming? ==>
          pc.entry in s.armed && pc.entry !in s.writers.Values && pc.entry in s.streams && s.streams[pc.entry] != [])
  }

  // A mapped entry without events belongs to the registration that is under way.
  ghost predicate MappedInv(s: State) {
    forall c :: c in s.writers && s.writers[c] in s.streams && s.streams[s.writers[c]] == [] ==>
      && s.holder.Some? && s.holder.value in s.threads
      && var pc := s.threads[s.holder.value];
      (pc.Listing? || pc.Sending?) && pc.entry == s.writers[c]
  }

  ghost predicate SnapshotFirst(s: State) {
    forall e, i :: e in s.streams && 0 <= i < |s.streams[e]| ==> (s.streams[e][i].Snapshot? <==> i == 0)
  }

  // Everything known about a channel, by a store, a snapshot or a thread, is true.
  ghost predicate TrueOf(repo: Repo, summary: Summary) {
    summary.id in repo.byId && repo.byId[summary.id].name == summary.name
  }

  ghost predicate AllTrue(repo: Repo, shown: map<ChannelId, Summary>) {
    forall id :: id in shown ==> shown[id].id == id && TrueOf(repo, shown[id])
  }

  ghost predicate ThreadTruth(repo: Repo, pc: Pc) {
    && (pc.Sending? ==> AllTrue(repo, ById(pc.snapshot)))
    && (pc.AboutToPublish? || pc.Publishing? ==> !pc.event.Snapshot? && EventTruth(repo, pc.event))
  }

  ghost predicate EventTruth(repo: Repo, event: ListEvent) {
    match event
    case Snapshot(channels) => AllTrue(repo, ById(channels))
    case Created(summary) => TrueOf(repo, summary)
    case CountChanged(_, _) => true
  }

  ghost predicate TruthInv(s: State) {
    && s.repo.Inv()
    && (forall e :: e in s.streams ==> AllTrue(s.repo, Fold(s.streams[e]).channels))
    && (forall t :: t in s.threads ==> ThreadTruth(s.repo, s.threads[t]))
  }

  // This thread will still tell entry e about the channel.
  predicate Owes(pc: Pc, e: EntryId, id: ChannelId) {
    || (pc.AboutToPublish? && pc.event.Created? && pc.event.summary.id == id)
    || (pc.Publishing? && pc.event.Created? && pc.event.summary.id == id && e in pc.targets)
  }

  ghost predicate Owed(s: State, e: EntryId, id: ChannelId) {
    exists t :: t in s.threads && Owes(s.threads[t], e, id)
  }

  // Some thread has created the channel and not yet collected its targets.
  ghost predicate Unannounced(s: State, id: ChannelId) {
    exists t :: t in s.threads && s.threads[t].AboutToPublish? && s.threads[t].event.Created?
      && s.threads[t].event.summary.id == id
  }

  // No channel is missed: each is shown already, or is owed to the entry; and one
  // that a pending snapshot lacks has not been announced to anybody yet.
  ghost predicate CoverInv(s: State) {
    && (forall c, id :: c in s.writers && s.writers[c] in s.streams && s.streams[s.writers[c]] != []
                        && id in s.repo.byId ==>
          id in Fold(s.streams[s.writers[c]]).channels || Owed(s, s.writers[c], id))
    && (forall t, id :: t in s.threads && s.threads[t].Sending? && id in s.repo.byId ==>
          id in ById(s.threads[t].snapshot) || Unannounced(s, id))
  }

  ghost predicate Inv(s: State) {
    LockInv(s) && EntryInv(s) && MappedInv(s) && SnapshotFirst(s) && TruthInv(s) && CoverInv(s)
  }

  // ----- Every step keeps it -----

  lemma StepKeepsLock(s: State, a: Action)
    requires Inv(s) && Enabled(s, a)
    ensures LockInv(Apply(s, a))
  {
    hide RepoAfter; hide WritersAfter; hide ArmedAfter; hide StreamsAfter;
    hide EntryInv; hide MappedInv; hide SnapshotFirst; hide TruthInv; hide CoverInv;
    hide Repo.Create; hide Written; hide Repo.KeptBy;
  }

  // A thread that did not move keeps what it knows about its entries: first the
  // steps that write to a stream, then the others.
  lemma WritesSpareOthers(s: State, a: Action, u: Tid)
    requires Inv(s) && Enabled(s, a) && u in s.threads && (a.WriteOne? || a.Send?) && u != a.t
    ensures ThreadEntries(Apply(s, a), u)
  {
    hide RepoAfter; hide HolderAfter;
    hide SnapshotFirst; hide TruthInv; hide CoverInv; hide MappedInv; hide LockInv; hide MapEntries;
    assert ThreadEntries(s, u) && ThreadEntries(s, a.t);
  }

  lemma OtherThreadKeepsEntries(s: State, a: Action, u: Tid)
    requires Inv(s) && Enabled(s, a) && u in s.threads && (a.Churn? || u != a.t) && !a.WriteOne? && !a.Send?
    ensures ThreadEntries(Apply(s, a), u)
  {
    hide RepoAfter; hide HolderAfter;
    hide SnapshotFirst; hide TruthInv; hide CoverInv; hide MappedInv; hide MapEntries;
    assert ThreadEntries(s, u);
    if a.Insert? || a.Erase? || a.Disarm? {
      assert ThreadEntries(s, a.t);
    }
    if a.Insert? {
      assert Apply(s, a).writers.Values <= s.writers.Values + {s.threads[a.t].entry};
    }
    if a.Erase? {
      assert Apply(s, a).writers.Values <= s.writers.Values;
    }
  }

  lemma MovedThreadKeepsEntries(s: State, a: Action)
    requires Inv(s) && Enabled(s, a) && !a.Churn?
    ensures ThreadEntries(Apply(s, a), a.t)
  {
    hide RepoAfter; hide HolderAfter;
    hide SnapshotFirst; hide TruthInv; hide CoverInv; hide OwnEntries;
    if a.t in s.threads {
      assert ThreadEntries(s, a.t);
    } else if a.pc.Registering? {
      assert a.pc.entry !in s.writers.Values;
    }
  }

  lemma StepKeepsOwnEntries(s: State, a: Action)
    requires Inv(s) && Enabled(s, a)
    ensures OwnEntries(Apply(s, a))
  {
    hide RepoAfter; hide HolderAfter; hide WritersAfter; hide ArmedAfter; hide StreamsAfter;
    hide SnapshotFirst; hide TruthInv; hide CoverInv; hide MappedInv; hide LockInv; hide MapEntries;
    hide ThreadEntries; hide Repo.Create; hide Written; hide Repo.KeptBy;
    if a.Spawn? {
      forall u | u in s.threads && Unwritten(s.threads[u]) ensures s.threads[u].entry in s.armed {
        EntryKnown(s, u);
      }
    }
  }

  lemma EntryKnown(s: State, u: Tid)
    requires u in s.threads && ThreadEntries(s, u) && Unwritten(s.threads[u])
    ensures s.threads[u].entry in s.armed
  {
  }

  lemma StepKeepsMapEntries(s: State, a: Action)
    requires Inv(s) && Enabled(s, a)
    ensures MapEntries(Apply(s, a))
  {
    hide RepoAfter; hide HolderAfter; hide ThreadsAfter;
    hide SnapshotFirst; hide TruthInv; hide CoverInv; hide MappedInv; hide LockInv; hide OwnEntries;
    if !a.Churn? && a.t in s.threads {
      assert ThreadEntries(s, a.t);
    }
  }

  lemma StepKeepsEntries(s: State, a: Action)
    requires Inv(s) && Enabled(s, a)
    ensures EntryInv(Apply(s, a))
  {
    hide SnapshotFirst; hide TruthInv; hide CoverInv; hide MappedInv; hide LockInv;
    hide MapEntries; hide OwnEntries; hide ThreadEntries; hide Inv;
    StepKeepsMapEntries(s, a);
    StepKeepsOwnEntries(s, a);
    var s' := Apply(s, a);
    forall u | u in s'.threads ensures ThreadEntries(s', u) {
      if u in s.threads && (a.Churn? || u != a.t) {
        if a.WriteOne? || a.Send? { WritesSpareOthers(s, a, u); } else { OtherThreadKeepsEntries(s, a, u); }
      } else {
        MovedThreadKeepsEntries(s, a);
      }
    }
  }

  lemma StepKeepsMapped(s: State, a: Action)
    requires Inv(s) && Enabled(s, a)
    ensures MappedInv(Apply(s, a))
  {
    hide RepoAfter; hide ArmedAfter;
    hide SnapshotFirst; hide TruthInv; hide CoverInv; hide Repo.Create; hide Repo.KeptBy; hide OwnEntries;
  }

  lemma StepKeepsSnapshotFirst(s: State, a: Action)
    requires Inv(s) && Enabled(s, a)
    ensures SnapshotFirst(Apply(s, a))
  {
    hide RepoAfter; hide HolderAfter; hide WritersAfter; hide ArmedAfter; hide ThreadsAfter;
    hide MappedInv; hide CoverInv;
  }

  // What is true of a channel stays true: channels are neither renamed nor deleted.
  lemma AllTrueKept(repo: Repo, repo': Repo, shown: map<ChannelId, Summary>)
    requires AllTrue(repo, shown) && repo.KeptBy(repo')
    ensures AllTrue(repo', shown)
  {
  }

  lemma ThreadTruthKept(repo: Repo, repo': Repo, pc: Pc)
    requires ThreadTruth(repo, pc) && repo.KeptBy(repo')
    ensures ThreadTruth(repo', pc)
  {
  }

  lemma RepoKept(s: State, a: Action)
    requires s.repo.Inv() && Enabled(s, a)
    ensures s.repo.KeptBy(Apply(s, a).repo) && Apply(s, a).repo.Inv()
  {
    if a.Create? {
      CreateKeepsIndexExact(s.repo, s.threads[a.t].name, s.threads[a.t].newId);
    }
  }

  lemma FoldKeepsTruth(repo: Repo, events: seq<ListEvent>, event: ListEvent)
    requires AllTrue(repo, Fold(events).channels) && EventTruth(repo, event)
    ensures AllTrue(repo, Fold(events + [event]).channels)
  {
    FoldSnoc(events, event);
  }

  lemma StreamStaysTrue(s: State, a: Action, e: EntryId)
    requires Inv(s) && Enabled(s, a) && e in Apply(s, a).streams
    ensures AllTrue(s.repo, Fold(Apply(s, a).streams[e]).channels)
  {
    hide RepoAfter; hide HolderAfter; hide WritersAfter; hide ArmedAfter; hide ThreadsAfter;
    hide MappedInv; hide CoverInv; hide SnapshotFirst; hide LockInv; hide EntryInv; hide AllTrue; hide Repo.Inv;
    if a.WriteOne? && e in s.streams {
      assert ThreadTruth(s.repo, s.threads[a.t]);
      FoldKeepsTruth(s.repo, s.streams[e], s.threads[a.t].event);
    } else if a.Send? && e in s.streams {
      assert ThreadTruth(s.repo, s.threads[a.t]);
      FoldKeepsTruth(s.repo, s.streams[e], Snapshot(s.threads[a.t].snapshot));
    } else if e !in s.streams {
      assert AllTrue(s.repo, map[]) by { NothingIsTrue(s.repo); }
    }
  }

  lemma NothingIsTrue(repo: Repo)
    ensures AllTrue(repo, map[])
  {
  }

  lemma ThreadStaysTrue(s: State, a: Action, u: Tid)
    requires Inv(s) && Enabled(s, a) && u in Apply(s, a).threads
    ensures ThreadTruth(Apply(s, a).repo, Apply(s, a).threads[u])
  {
    hide HolderAfter; hide WritersAfter; hide ArmedAfter; hide StreamsAfter;
    hide MappedInv; hide CoverInv; hide SnapshotFirst; hide LockInv; hide EntryInv; hide AllTrue; hide Repo.KeptBy;
    if a.Create? && u == a.t {
      CreatedIsTrue(s.repo, s.threads[u].name, s.threads[u].newId);
    } else {
      hide Repo.Create; hide TrueOf; hide Repo.Inv;
      RepoKept(s, a);
      if u in s.threads {
        ThreadTruthKept(s.repo, Apply(s, a).repo, s.threads[u]);
      }
      if a.ListAll? {
        ListedIsTrue(a.listed, s.repo);
      }
    }
  }

  lemma CreatedIsTrue(repo: Repo, name: ChannelName, newId: ChannelId)
    requires newId !in repo.byId
    ensures var r := repo.Create(name, newId);
      r.1.Ok? ==> TrueOf(r.0, Summarise(r.1.value))
  {
  }

  lemma ListedIsTrue(listed: seq<ChannelRecord>, repo: Repo)
    requires repo.Inv() && Lists(listed, repo)
    ensures AllTrue(repo, ById(SummariseAll(listed)))
  {
    SnapshotHoldsRepo(listed, repo);
  }

  lemma StepKeepsTruth(s: State, a: Action)
    requires Inv(s) && Enabled(s, a)
    ensures TruthInv(Apply(s, a))
  {
    hide MappedInv; hide CoverInv; hide SnapshotFirst; hide LockInv; hide EntryInv; hide AllTrue; hide ThreadTruth;
    RepoKept(s, a);
    var s' := Apply(s, a);
    hide Apply;
    forall e | e in s'.streams ensures AllTrue(s'.repo, Fold(s'.streams[e]).channels) {
      StreamStaysTrue(s, a, e);
      AllTrueKept(s.repo, s'.repo, Fold(s'.streams[e]).channels);
    }
    forall u | u in s'.threads ensures ThreadTruth(s'.repo, s'.threads[u]) {
      ThreadStaysTrue(s, a, u);
    }
  }

  lemma FoldGrows(events: seq<ListEvent>, event: ListEvent)
    ensures !event.Snapshot? ==> Fold(events).channels.Keys <= Fold(events + [event]).channels.Keys
    ensures event.Created? ==> event.summary.id in Fold(events + [event]).channels
    ensures event.Snapshot? ==> Fold(events + [event]).channels == ById(event.channels)
  {
    FoldSnoc(events, event);
  }

  // ----- No channel is missed -----

  // The entry was mapped and written to before the step, unless the step is the
  // snapshot itself.
  lemma WrittenBefore(s: State, a: Action, c: ClientId)
    requires Inv(s) && Enabled(s, a)
    requires var s' := Apply(s, a);
      && c in s'.writers && s'.writers[c] in s'.streams && s'.streams[s'.writers[c]] != []
      && !(a.Send? && s.threads[a.t].entry == s'.writers[c])
    ensures var e := Apply(s, a).writers[c];
      c in s.writers && s.writers[c] == e && e in s.streams && s.streams[e] != []
  {
    hide RepoAfter; hide HolderAfter; hide ArmedAfter; hide ThreadsAfter;
    hide MappedInv; hide SnapshotFirst; hide TruthInv; hide CoverInv; hide LockInv;
    if a.Insert? {
      assert ThreadEntries(s, a.t);
    }
    if a.WriteOne? {
      assert ThreadEntries(s, a.t);
    }
  }

  lemma GrowsOnly(s: State, a: Action, e: EntryId)
    requires Inv(s) && Enabled(s, a) && e in s.streams && s.streams[e] != []
    requires !(a.Send? && s.threads[a.t].entry == e)
    ensures e in Apply(s, a).streams
    ensures Fold(s.streams[e]).channels.Keys <= Fold(Apply(s, a).streams[e]).channels.Keys
  {
    hide RepoAfter; hide HolderAfter; hide WritersAfter; hide ArmedAfter; hide ThreadsAfter;
    hide MappedInv; hide SnapshotFirst; hide CoverInv; hide LockInv;
    if a.WriteOne? {
      assert ThreadTruth(s.repo, s.threads[a.t]);
      FoldGrows(s.streams[e], s.threads[a.t].event);
    }
  }

  // A debt is either still owed after the step or paid by it.
  lemma StillOwed(s: State, a: Action, u: Tid, c: ClientId, id: ChannelId)
    requires Inv(s) && Enabled(s, a)
    requires c in s.writers && s.writers[c] in s.streams && u in s.threads && Owes(s.threads[u], s.writers[c], id)
    requires !(a.Send? && s.threads[a.t].entry == s.writers[c])
    ensures var s', e := Apply(s, a), s.writers[c];
      e in s'.streams && (id in Fold(s'.streams[e]).channels || Owed(s', e, id))
  {
    hide RepoAfter; hide HolderAfter; hide WritersAfter; hide ArmedAfter;
    hide MappedInv; hide SnapshotFirst; hide CoverInv; hide LockInv;
    var s', e := Apply(s, a), s.writers[c];
    if a.WriteOne? && a.t == u && a.target == e {
      FoldGrows(s.streams[e], s.threads[u].event);
    } else {
      assert e in s.writers.Values;
      assert Owes(s'.threads[u], e, id);
    }
  }

  // The snapshot that is being written lacks only channels still unannounced.
  lemma SentIsCovered(s: State, a: Action, id: ChannelId)
    requires Inv(s) && Enabled(s, a) && a.Send? && id in s.repo.byId
    ensures var s', e := Apply(s, a), s.threads[a.t].entry;
      e in s'.streams && (id in Fold(s'.streams[e]).channels || Owed(s', e, id))
  {
    hide RepoAfter; hide HolderAfter; hide WritersAfter; hide ArmedAfter;
    hide MappedInv; hide SnapshotFirst; hide LockInv; hide TruthInv; hide MapEntries; hide OwnEntries;
    var s', pc := Apply(s, a), s.threads[a.t];
    assert ThreadEntries(s, a.t);
    FoldGrows([], Snapshot(pc.snapshot));
    if id !in ById(pc.snapshot) {
      var u :| u in s.threads && s.threads[u].AboutToPublish? && s.threads[u].event.Created?
        && s.threads[u].event.summary.id == id;
      assert Owes(s'.threads[u], pc.entry, id);
    }
  }

  // A mapped, written-to entry goes on being shown, or owed, every channel.
  lemma StillCovered(s: State, a: Action, c: ClientId, id: ChannelId)
    requires Inv(s) && Enabled(s, a)
    requires var s' := Apply(s, a);
      c in s'.writers && s'.writers[c] in s'.streams && s'.streams[s'.writers[c]] != [] && id in s'.repo.byId
    ensures var s' := Apply(s, a);
      id in Fold(s'.streams[s'.writers[c]]).channels || Owed(s', s'.writers[c], id)
  {
    hide HolderAfter; hide ArmedAfter; hide StreamsAfter; hide WritersAfter;
    hide EntryInv; hide MappedInv; hide SnapshotFirst; hide LockInv; hide TruthInv;
    var s' := Apply(s, a);
    var e := s'.writers[c];
    if a.Create? && id !in s.repo.byId {
      assert Owes(s'.threads[a.t], e, id);
    } else if a.Send? && s.threads[a.t].entry == e {
      SentIsCovered(s, a, id);
    } else {
      WrittenBefore(s, a, c);
      if id in Fold(s.streams[e]).channels {
        GrowsOnly(s, a, e);
      } else {
        var u :| u in s.threads && Owes(s.threads[u], e, id);
        StillOwed(s, a, u, c, id);
      }
    }
  }

  // While a registration holds the map's lock nobody can collect targets, so
  // what its snapshot lacks stays unannounced.
  lemma StillUnannounced(s: State, a: Action, t: Tid, id: ChannelId)
    requires Inv(s) && Enabled(s, a)
    requires var s' := Apply(s, a); t in s'.threads && s'.threads[t].Sending? && id in s'.repo.byId
    ensures var s' := Apply(s, a);
      id in ById(s'.threads[t].snapshot) || Unannounced(s', id)
  {
    hide HolderAfter; hide WritersAfter; hide ArmedAfter; hide StreamsAfter;
    hide EntryInv; hide MappedInv; hide SnapshotFirst; hide TruthInv;
    var s' := Apply(s, a);
    if a.ListAll? && a.t == t {
      assert s.repo.Inv() by { KnowsRepo(s); }
      SnapshotHoldsRepo(a.listed, s.repo);
    } else {
      assert t in s.threads && s.threads[t] == s'.threads[t];
      if a.Create? && id !in s.repo.byId {
        assert s'.threads[a.t].AboutToPublish?;
      } else if id !in ById(s.threads[t].snapshot) {
        var u :| u in s.threads && s.threads[u].AboutToPublish? && s.threads[u].event.Created?
          && s.threads[u].event.summary.id == id;
        assert u in s'.threads && s'.threads[u] == s.threads[u];
      }
    }
  }

  lemma KnowsRepo(s: State)
    requires TruthInv(s)
    ensures s.repo.Inv()
  {
  }

  lemma StepKeepsInv(s: State, a: Action)
    requires Inv(s) && Enabled(s, a)
    ensures Inv(Apply(s, a))
  {
    hide EntryInv; hide MappedInv; hide SnapshotFirst; hide TruthInv; hide LockInv; hide Apply; hide Enabled;
    hide Owed; hide Unannounced;
    StepKeepsLock(s, a);
    StepKeepsEntries(s, a);
    StepKeepsMapped(s, a);
    StepKeepsSnapshotFirst(s, a);
    StepKeepsTruth(s, a);
    var s' := Apply(s, a);
    forall c, id | c in s'.writers && s'.writers[c] in s'.streams && s'.streams[s'.writers[c]] != []
      && id in s'.repo.byId
      ensures id in Fold(s'.streams[s'.writers[c]]).channels || Owed(s', s'.writers[c], id)
    {
      StillCovered(s, a, c, id);
    }
    forall t, id | t in s'.threads && s'.threads[t].Sending? && id in s'.repo.byId
      ensures id in ById(s'.threads[t].snapshot) || Unannounced(s', id)
    {
      StillUnannounced(s, a, t, id);
    }
  }

  lemma {:induction false} RunKeepsInv(states: seq<State>, actions: seq<Action>, n: nat)
    requires Run(states, actions) && n < |states|
    ensures Inv(states[n])
    decreases n
  {
    if n > 0 {
      hide Apply; hide Enabled; hide Inv;
      RunKeepsInv(states, actions, n - 1);
      assert states[n - 1 + 1] == Apply(states[n - 1], actions[n - 1]);
      StepKeepsInv(states[n - 1], actions[n - 1]);
    }
  }

  // ----- What subscribers can rely on -----

  // In every interleaving the first event of each stream, and only the first, is
  // its snapshot.
  lemma FirstEventIsSnapshot(states: seq<State>, actions: seq<Action>, n: nat, e: EntryId, i: nat)
    requires Run(states, actions) && n < |states|
    requires e in states[n].streams && i < |states[n].streams[e]|
    ensures states[n].streams[e][i].Snapshot? <==> i == 0
  {
    RunKeepsInv(states, actions, n);
  }

  // No created channel is on its way to the subscribers.
  ghost predicate NoCreateInProgress(s: State) {
    forall t :: t in s.threads ==>
      !((s.threads[t].AboutToPublish? || s.threads[t].Publishing?) && s.threads[t].event.Created?)
  }

  lemma NothingOwed(s: State, e: EntryId, id: ChannelId)
    requires NoCreateInProgress(s)
    ensures !Owed(s, e, id)
  {
  }

  // The registration of this client has returned or is about to.
  ghost predicate Registered(s: State, c: ClientId) {
    && c in s.writers
    && forall t :: t in s.threads && (s.threads[t].Listing? || s.threads[t].Sending?) ==>
         s.threads[t].entry != s.writers[c]
  }

  // In every interleaving, whenever no creation is in progress, the store folded
  // from the stream of a registered entry has exactly the repository's channels.
  lemma NoChannelMissed(states: seq<State>, actions: seq<Action>, n: nat, c: ClientId)
    requires Run(states, actions) && n < |states|
    requires NoCreateInProgress(states[n]) && Registered(states[n], c)
    ensures var s := states[n];
      && s.writers[c] in s.streams
      && var shown := Fold(s.streams[s.writers[c]]).channels;
      && shown.Keys == s.repo.byId.Keys
      && forall id :: id in shown ==> shown[id].id == id && shown[id].name == s.repo.byId[id].name
  {
    RunKeepsInv(states, actions, n);
    var s := states[n];
    var e := s.writers[c];
    assert s.streams[e] != [];
    forall id | id in s.repo.byId ensures id in Fold(s.streams[e]).channels {
      NothingOwed(s, e, id);
    }
  }

  // ----- Counts are another matter -----

  function WithMembers(repo: Repo, id: ChannelId, members: set<ClientId>): Repo
    requires id in repo.byId
  {
    repo.(byId := repo.byId[id := repo.byId[id].(members := members)])
  }

  // A run that has got to s.
  ghost predicate RunTo(states: seq<State>, actions: seq<Action>, s: State) {
    Run(states, actions) && states[|actions|] == s
  }

  lemma StepTo(states: seq<State>, actions: seq<Action>, s: State, a: Action)
    returns (longer: seq<State>, more: seq<Action>)
    requires RunTo(states, actions, s) && Enabled(s, a)
    ensures RunTo(longer, more, Apply(s, a)) && states <= longer
  {
    hide Enabled; hide Apply; hide Initial;
    longer, more := states + [Apply(s, a)], actions + [a];
  }

  // The members of a channel change, and a thread is going to tell their number.
  lemma ChangeAndAnnounce(states: seq<State>, actions: seq<Action>, s: State, id: ChannelId, members: set<ClientId>,
                          t: Tid)
    returns (longer: seq<State>, more: seq<Action>, end: State)
    requires RunTo(states, actions, s) && id in s.repo.byId && t !in s.threads
    ensures RunTo(longer, more, end) && states <= longer
    ensures end == s.(repo := WithMembers(s.repo, id, members),
                     threads := s.threads[t := AboutToPublish(CountChanged(id, |members|))])
  {
    RunKeepsInv(states, actions, |actions|);
    KnowsRepo(s);
    var churn, spawn := Churn(WithMembers(s.repo, id, members)), Spawn(t, AboutToPublish(CountChanged(id, |members|)));
    hide RunTo; hide Inv;
    longer, more := StepTo(states, actions, s, churn);
    end := Apply(s, churn);
    longer, more := StepTo(longer, more, end, spawn);
    end := Apply(end, spawn);
  }

  lemma CollectBoth(states: seq<State>, actions: seq<Action>, s: State, t: Tid, u: Tid)
    returns (longer: seq<State>, more: seq<Action>, end: State)
    requires RunTo(states, actions, s) && t != u && s.holder == None
    requires t in s.threads && s.threads[t].AboutToPublish? && u in s.threads && s.threads[u].AboutToPublish?
    ensures RunTo(longer, more, end) && states <= longer
    ensures end == s.(threads := s.threads[t := Publishing(s.threads[t].event, s.writers.Values)]
                                         [u := Publishing(s.threads[u].event, s.writers.Values)])
  {
    hide RunTo;
    longer, more := StepTo(states, actions, s, Collect(t));
    end := Apply(s, Collect(t));
    longer, more := StepTo(longer, more, end, Collect(u));
    end := Apply(end, Collect(u));
  }

  lemma ChangeTwice(states: seq<State>, actions: seq<Action>, s: State, id: ChannelId, one: set<ClientId>,
                    two: set<ClientId>, t: Tid, u: Tid)
    returns (longer: seq<State>, more: seq<Action>, end: State)
    requires RunTo(states, actions, s) && t != u && s.holder == None
    requires id in s.repo.byId && t !in s.threads && u !in s.threads
    ensures RunTo(longer, more, end) && states <= longer
    ensures end.holder == None && end.writers == s.writers && end.armed == s.armed && end.streams == s.streams
    ensures id in end.repo.byId && end.repo.byId[id].members == two
    ensures t in end.threads && end.threads[t] == Publishing(CountChanged(id, |one|), s.writers.Values)
    ensures u in end.threads && end.threads[u] == Publishing(CountChanged(id, |two|), s.writers.Values)
  {
    hide RunTo;
    longer, more, end := ChangeAndAnnounce(states, actions, s, id, one, t);
    longer, more, end := ChangeAndAnnounce(longer, more, end, id, two, u);
    longer, more, end := CollectBoth(longer, more, end, t, u);
  }

  lemma WriteTo(states: seq<State>, actions: seq<Action>, s: State, t: Tid, e: EntryId)
    returns (longer: seq<State>, more: seq<Action>, end: State)
    requires RunTo(states, actions, s)
    requires t in s.threads && s.threads[t].Publishing? && e in s.threads[t].targets
    requires e in s.armed && s.armed[e] && e in s.streams
    ensures RunTo(longer, more, end) && states <= longer
    ensures end == s.(streams := s.streams[e := s.streams[e] + [s.threads[t].event]],
                     threads := s.threads[t := Publishing(s.threads[t].event, s.threads[t].targets - {e})])
  {
    hide RunTo;
    longer, more := StepTo(states, actions, s, WriteOne(t, e));
    end := Apply(s, WriteOne(t, e));
  }

  // Wherever a run has got to, two changes of a channel's members can reach a
  // subscriber in the wrong order: it is left with the number of the first, with
  // nothing more to come from either.
  lemma CountsCanOvertake(states: seq<State>, actions: seq<Action>, s: State, c: ClientId, id: ChannelId,
                          one: set<ClientId>, two: set<ClientId>, t: Tid, u: Tid)
    returns (longer: seq<State>, more: seq<Action>, end: State)
    requires RunTo(states, actions, s) && s.holder == None && Registered(s, c) && s.writers[c] in s.streams
    requires id in s.repo.byId && id in Fold(s.streams[s.writers[c]]).channels
    requires t != u && t !in s.threads && u !in s.threads
    ensures RunTo(longer, more, end) && states <= longer
    ensures c in end.writers && end.writers[c] in end.streams
    ensures id in end.repo.byId && end.repo.byId[id].members == two
    ensures var shown := Fold(end.streams[end.writers[c]]).channels; id in shown && shown[id].count == |one|
    ensures t in end.threads && end.threads[t].Publishing? && end.writers[c] !in end.threads[t].targets
    ensures u in end.threads && end.threads[u].Publishing? && end.writers[c] !in end.threads[u].targets
  {
    var e := s.writers[c];
    RunKeepsInv(states, actions, |actions|);
    assert e in s.armed && s.armed[e];
    hide RunTo; hide Inv; hide Registered; hide Fold;
    longer, more, end := ChangeTwice(states, actions, s, id, one, two, t, u);
    longer, more, end := WriteTo(longer, more, end, u, e);
    longer, more, end := WriteTo(longer, more, end, t, e);
    LastCountWins(s.streams[e], id, |two|, |one|);
  }

  lemma LastCountWins(events: seq<ListEvent>, id: ChannelId, first: nat, last: nat)
    requires id in Fold(events).channels
    ensures var shown := Fold(events + [CountChanged(id, first)] + [CountChanged(id, last)]).channels;
      id in shown && shown[id].count == last
  {
    FoldSnoc(events, CountChanged(id, first));
    FoldSnoc(events + [CountChanged(id, first)], CountChanged(id, last));
  }

  // ----- Which count is shown in the end -----

  lemma RunStep(states: seq<State>, actions: seq<Action>, k: nat)
    requires Run(states, actions) && k + 1 < |states|
    ensures k < |actions| && Enabled(states[k], actions[k]) && states[k + 1] == Apply(states[k], actions[k])
  {
    hide Apply; hide Enabled; hide Initial;
  }

  predicate IsAbout(event: ListEvent, id: ChannelId) {
    match event
    case Snapshot(_) => true
    case Created(summary) => summary.id == id
    case CountChanged(channel, _) => channel == id
  }

  // The step writes an event about the channel to the entry.
  ghost predicate Touches(s: State, a: Action, e: EntryId, id: ChannelId) {
    || (a.Send? && a.t in s.threads && s.threads[a.t].Sending? && s.threads[a.t].entry == e)
    || (a.WriteOne? && a.target == e && a.t in s.threads && s.threads[a.t].Publishing?
        && IsAbout(s.threads[a.t].event, id))
  }

  ghost predicate ShowsCount(s: State, e: EntryId, id: ChannelId, count: nat) {
    && e in s.streams && id in Fold(s.streams[e]).channels && Fold(s.streams[e]).channels[id].count == count
  }

  lemma NotAboutIt(events: seq<ListEvent>, event: ListEvent, id: ChannelId)
    requires !IsAbout(event, id) && id in Fold(events).channels
    ensures id in Fold(events + [event]).channels && Fold(events + [event]).channels[id] == Fold(events).channels[id]
  {
    FoldSnoc(events, event);
  }

  lemma CountStaysOnce(s: State, a: Action, e: EntryId, id: ChannelId, count: nat)
    requires Enabled(s, a) && !Touches(s, a, e, id) && ShowsCount(s, e, id, count)
    ensures ShowsCount(Apply(s, a), e, id, count)
  {
    hide Fold; hide RepoAfter; hide WritersAfter; hide ArmedAfter; hide ThreadsAfter; hide HolderAfter; hide IsAbout;
    if a.WriteOne? && a.target == e {
      NotAboutIt(s.streams[e], s.threads[a.t].event, id);
    }
  }

  lemma {:induction false} CountStays(states: seq<State>, actions: seq<Action>, i: nat, k: nat, e: EntryId,
                                      id: ChannelId, count: nat)
    requires Run(states, actions) && i <= k < |states| && ShowsCount(states[i], e, id, count)
    requires forall j :: i <= j < k && j < |actions| ==> !Touches(states[j], actions[j], e, id)
    ensures ShowsCount(states[k], e, id, count)
    decreases k
  {
    hide *;
    if i < k {
      RunStep(states, actions, k - 1);
      CountStays(states, actions, i, k - 1, e, id, count);
      CountStaysOnce(states[k - 1], actions[k - 1], e, id, count);
    }
  }

  // A disarmed entry stays so.
  lemma {:induction false} ArmedBefore(states: seq<State>, actions: seq<Action>, i: nat, k: nat, e: EntryId)
    requires Run(states, actions) && i <= k < |states| && e in states[i].armed
    requires e in states[k].armed ==> states[k].armed[e]
    ensures states[i].armed[e] && e in states[k].armed
    decreases k - i
  {
    if i < k {
      RunStep(states, actions, i);
      hide Run; hide RepoAfter; hide WritersAfter; hide StreamsAfter; hide ThreadsAfter; hide HolderAfter;
      ArmedBefore(states, actions, i + 1, k, e);
    }
  }

  lemma CountWritten(s: State, a: Action, e: EntryId, id: ChannelId, count: nat, was: nat)
    requires Enabled(s, a) && a.WriteOne? && a.target == e && s.threads[a.t].event == CountChanged(id, count)
    requires e in s.armed && s.armed[e] && ShowsCount(s, e, id, was)
    ensures ShowsCount(Apply(s, a), e, id, count)
  {
    FoldSnoc(s.streams[e], CountChanged(id, count));
    hide Fold;
  }

  // The count shown of a channel is the one written last.
  lemma LastCountIsShown(states: seq<State>, actions: seq<Action>, j: nat, k: nat, e: EntryId, id: ChannelId,
                         count: nat, was: nat)
    requires Run(states, actions) && j < k < |states| && j < |actions|
    requires actions[j].WriteOne? && actions[j].target == e && actions[j].t in states[j].threads
    requires var pc := states[j].threads[actions[j].t]; pc == Publishing(CountChanged(id, count), pc.targets)
    requires ShowsCount(states[j], e, id, was) && e in states[j].armed && (e in states[k].armed ==> states[k].armed[e])
    requires forall l :: j < l < k && l < |actions| ==> !Touches(states[l], actions[l], e, id)
    ensures ShowsCount(states[k], e, id, count)
  {
    hide *;
    RunStep(states, actions, j);
    ArmedBefore(states, actions, j, k, e);
    CountWritten(states[j], actions[j], e, id, count, was);
    CountStays(states, actions, j + 1, k, e, id, count);
  }

  // The thread is going to write the event to the entry.
  ghost predicate IsToWrite(s: State, t: Tid, e: EntryId, event: ListEvent) {
    t in s.threads && s.threads[t].Publishing? && s.threads[t].event == event && e in s.threads[t].targets
  }

  // It is past that, and has nothing more to write to it.
  ghost predicate HasWritten(s: State, t: Tid, e: EntryId) {
    t in s.threads && (s.threads[t].Finished? || (s.threads[t].Publishing? && e !in s.threads[t].targets))
  }

  lemma WriteStep(s: State, a: Action, t: Tid, e: EntryId, event: ListEvent)
    requires Enabled(s, a)
    ensures IsToWrite(s, t, e, event) && a != WriteOne(t, e) ==> IsToWrite(Apply(s, a), t, e, event)
    ensures IsToWrite(s, t, e, event) && a == WriteOne(t, e) ==> HasWritten(Apply(s, a), t, e)
    ensures HasWritten(s, t, e) ==> HasWritten(Apply(s, a), t, e) && a != WriteOne(t, e)
  {
    hide RepoAfter; hide WritersAfter; hide StreamsAfter; hide ArmedAfter; hide HolderAfter;
  }

  ghost predicate OnlyAt(actions: seq<Action>, i: nat, k: nat, a: Action, w: nat) {
    && i <= w < k && w < |actions| && actions[w] == a
    && forall j :: i <= j < k && j < |actions| && actions[j] == a ==> j == w
  }

  // It writes exactly once.
  lemma {:induction false} WritesOnce(states: seq<State>, actions: seq<Action>, i: nat, k: nat, t: Tid, e: EntryId,
                                      event: ListEvent) returns (w: nat)
    requires Run(states, actions) && i <= k < |states| && IsToWrite(states[i], t, e, event)
    ensures || (HasWritten(states[k], t, e) && OnlyAt(actions, i, k, WriteOne(t, e), w)
                && IsToWrite(states[w], t, e, event))
            || (IsToWrite(states[k], t, e, event)
                && forall j :: i <= j < k && j < |actions| ==> actions[j] != WriteOne(t, e))
    decreases k
  {
    hide Run; hide IsToWrite; hide HasWritten; hide Apply; hide Enabled;
    w := i;
    if i < k {
      RunStep(states, actions, k - 1);
      w := WritesOnce(states, actions, i, k - 1, t, e, event);
      WriteStep(states[k - 1], actions[k - 1], t, e, event);
      if IsToWrite(states[k - 1], t, e, event) && actions[k - 1] == WriteOne(t, e)
         && forall j :: i <= j < k - 1 && j < |actions| ==> actions[j] != WriteOne(t, e) {
        w := k - 1;
      }
    }
  }

  lemma EntryOfStream(states: seq<State>, actions: seq<Action>, j: nat, e: EntryId)
    requires Run(states, actions) && j < |states| && e in states[j].streams
    ensures e in states[j].armed
  {
    RunKeepsInv(states, actions, j);
    hide Run;
  }

  ghost predicate OnlyThese(states: seq<State>, actions: seq<Action>, i: nat, k: nat, e: EntryId, id: ChannelId, v: nat,
                            w: nat)
    requires k <= |states|
  {
    forall j :: i <= j < k && j < |actions| && Touches(states[j], actions[j], e, id) ==> j == v || j == w
  }

  lemma LaterOfTwoIsShown(states: seq<State>, actions: seq<Action>, i: nat, v: nat, w: nat, k: nat, t: Tid, m: nat,
                          u: Tid, n: nat, e: EntryId, id: ChannelId, was: nat)
    requires Run(states, actions) && i <= v < w < k < |states| && w < |actions|
    requires actions[v] == WriteOne(t, e) && IsToWrite(states[v], t, e, CountChanged(id, m))
    requires actions[w] == WriteOne(u, e) && IsToWrite(states[w], u, e, CountChanged(id, n))
    requires ShowsCount(states[i], e, id, was) && e in states[k].armed && states[k].armed[e]
    requires OnlyThese(states, actions, i, k, e, id, v, w)
    ensures ShowsCount(states[k], e, id, n)
  {
    hide Run; hide Touches; hide Fold;
    CountStays(states, actions, i, v, e, id, was);
    EntryOfStream(states, actions, v, e);
    LastCountIsShown(states, actions, v, w, e, id, m, was) by {
      EntryOfStream(states, actions, i, e);
      ArmedBefore(states, actions, v, k, e);
      ArmedThrough(states, actions, v, w, k, e);
    }
    EntryOfStream(states, actions, w, e);
    LastCountIsShown(states, actions, w, k, e, id, n, m);
  }

  lemma ArmedThrough(states: seq<State>, actions: seq<Action>, v: nat, w: nat, k: nat, e: EntryId)
    requires Run(states, actions) && v <= w <= k < |states| && e in states[v].armed
    requires e in states[k].armed && states[k].armed[e]
    ensures e in states[w].armed && states[w].armed[e]
  {
    EntryStays(states, actions, v, w, e);
    ArmedBefore(states, actions, w, k, e);
  }

  lemma {:induction false} EntryStays(states: seq<State>, actions: seq<Action>, v: nat, w: nat, e: EntryId)
    requires Run(states, actions) && v <= w < |states| && e in states[v].armed
    ensures e in states[w].armed
    decreases w
  {
    if v < w {
      EntryStays(states, actions, v, w - 1, e);
      RunStep(states, actions, w - 1);
      hide Run; hide RepoAfter; hide WritersAfter; hide StreamsAfter; hide ThreadsAfter; hide HolderAfter;
    }
  }

  // Two threads are about to tell a subscriber of the list different counts of a channel
  // it knows, and nothing else about the channel is written to it meanwhile. When both
  // have told it, the second thread's count is shown if and only if it was written last,
  // or the counts are the same.
  lemma ShownCountIff(states: seq<State>, actions: seq<Action>, i: nat, k: nat, t: Tid, m: nat, u: Tid, n: nat,
                      e: EntryId, id: ChannelId)
    returns (a: nat, b: nat)
    requires Run(states, actions) && i <= k < |states| && t != u
    requires IsToWrite(states[i], t, e, CountChanged(id, m)) && IsToWrite(states[i], u, e, CountChanged(id, n))
    requires HasWritten(states[k], t, e) && HasWritten(states[k], u, e)
    requires e in states[i].streams && id in Fold(states[i].streams[e]).channels
    requires e in states[k].armed && states[k].armed[e]
    requires forall j :: i <= j < k && j < |actions| && Touches(states[j], actions[j], e, id) ==>
      actions[j] == WriteOne(t, e) || actions[j] == WriteOne(u, e)
    ensures OnlyAt(actions, i, k, WriteOne(t, e), a) && OnlyAt(actions, i, k, WriteOne(u, e), b)
    ensures e in states[k].streams && id in Fold(states[k].streams[e]).channels
    ensures var count := Fold(states[k].streams[e]).channels[id].count;
      && (count == n <==> a < b || m == n)
      && (count == m <==> b < a || m == n)
  {
    a := WritesOnce(states, actions, i, k, t, e, CountChanged(id, m));
    b := WritesOnce(states, actions, i, k, u, e, CountChanged(id, n));
    hide Run; hide Touches; hide Fold;
    var was := Fold(states[i].streams[e]).channels[id].count;
    if a < b {
      LaterOfTwoIsShown(states, actions, i, a, b, k, t, m, u, n, e, id, was);
    } else {
      LaterOfTwoIsShown(states, actions, i, b, a, k, u, n, t, m, e, id, was);
    }
  }
}

/**
 The list that the web client shows, compared with the send log: exactly when it is
 a stretch of the log, with nothing missing, foreign or out of place; what follows
 when the stream delivers in the order of the log, as it does while requests run as
 a whole; and runs in which each condition fails.
 */
module LiveView {
  import opened Core
  import opened MessageRepository
  import opened ListMessages
  import opened MessageView
  import opened LiveHistory

  // ----- Nothing missing -----

  ghost predicate IsSegment(s: State, a: int, b: int) {
    forall i :: Covered(s, i) <==> a <= i < b
  }

  // Between the pages and a message that came live, everything came live; without
  // pages, everything between two messages that came live.
  ghost predicate Seamless(s: State) {
    if s.lo < s.hi
    then forall i, j :: Live(s, i) && (s.hi <= j <= i || i <= j < s.lo) ==> Live(s, j)
    else forall i, j, k :: Live(s, i) && Live(s, k) && i <= j <= k ==> Live(s, j)
  }

  ghost predicate SomeLogged(q: seq<Arrival>) {
    exists a :: a in q && a.Logged?
  }

  lemma {:induction false} Ends(q: seq<Arrival>) returns (low: nat, high: nat)
    requires SomeLogged(q)
    ensures Logged(low) in q && Logged(high) in q && forall i: nat :: Logged(i) in q ==> low <= i <= high
  {
    var init, last := q[..|q| - 1], q[|q| - 1];
    assert q == init + [last];
    if SomeLogged(init) {
      low, high := Ends(init);
      if last.Logged? {
        var i := last.position;
        low, high := if i < low then i else low, if high < i then i else high;
      }
    } else {
      assert last.Logged?;
      low, high := last.position, last.position;
    }
  }

  lemma SeamlessIsSegment(s: State, channel: ChannelId) returns (a: nat, b: nat)
    requires Inv(s, channel) && Seamless(s)
    ensures a <= b <= |Log(s, channel)| && IsSegment(s, a, b)
  {
    hide Flatten; hide Pages; hide SentTo; hide Cursor; hide ServerPages; hide Holds; hide KeptBack; hide DistinctIds;
    a, b := s.lo, s.hi;
    if s.hook.initialFetched && SomeLogged(s.arrived) {
      var low, high := Ends(s.arrived);
      assert Live(s, low) && Live(s, high);
      if s.lo == s.hi {
        a, b := low, high + 1;
      } else {
        a, b := if low < s.lo then low else s.lo, if s.hi <= high then high + 1 else s.hi;
      }
    }
  }

  lemma SegmentIsSeamless(s: State, a: int, b: int)
    requires IsSegment(s, a, b) && s.lo <= s.hi
    ensures Seamless(s)
  {
    if s.lo < s.hi {
      assert Covered(s, s.lo) && Covered(s, s.hi - 1);
    }
    forall i | Live(s, i) ensures a <= i < b {
      assert Covered(s, i);
    }
    forall j | a <= j < b && !(s.lo <= j < s.hi) ensures Live(s, j) {
      assert Covered(s, j);
    }
  }

  // Exactly when what is shown has no gap.
  lemma GapFreeIff(s: State, channel: ChannelId)
    requires Inv(s, channel)
    ensures (exists a, b :: IsSegment(s, a, b)) <==> Seamless(s)
  {
    if a, b :| IsSegment(s, a, b) {
      SegmentIsSeamless(s, a, b);
    }
    if Seamless(s) {
      var a, b := SeamlessIsSegment(s, channel);
    }
  }

  // When every message above the pages has either come or passed the client by, and
  // nothing has come from below them, the gaps are the messages that passed it by
  // and were followed by one that came.
  lemma GapsWerePassedBy(s: State, channel: ChannelId)
    requires Inv(s, channel) && s.lo < s.hi && s.hook.initialFetched
    requires forall i: nat :: s.hi <= i < |Log(s, channel)| ==> Logged(i) in s.arrived || i in s.passed
    requires forall i: nat :: Logged(i) in s.arrived ==> s.lo <= i
    ensures Seamless(s) <==> forall i: nat, j: nat :: i in s.passed && Logged(j) in s.arrived && s.hi <= i ==> j < i
  {
    hide Flatten; hide Pages; hide SentTo; hide Cursor; hide ServerPages; hide Holds; hide KeptBack; hide DistinctIds;
    if Seamless(s) {
      forall i: nat, j: nat | i in s.passed && Logged(j) in s.arrived && s.hi <= i ensures j < i {
        assert Live(s, j) && !Live(s, i);
      }
    }
  }

  // ----- Nothing foreign -----

  ghost predicate NoStray(s: State) {
    forall m :: !Foreign(s, m)
  }

  // ----- Nothing out of place -----

  // The messages of the pages in the order of the pages, each where it first occurs.
  function Placed(cache: Cache): seq<Message> {
    Dedup(Flatten(Pages(cache)))
  }

  // Of two messages that are shown the later one has the later time, or the same
  // time and the later place.
  ghost predicate InPlace(s: State, log: seq<Message>) {
    forall i, j :: 0 <= i < j < |log| && Covered(s, i) && Covered(s, j) ==>
      log[i].sentAt < log[j].sentAt || (log[i].sentAt == log[j].sentAt && Before(Placed(s.hook.cache), log[i], log[j]))
  }

  lemma DistinctHasNoDup(q: seq<Message>)
    requires DistinctIds(q)
    ensures NoDup(q)
  {
  }

  lemma InSlice(log: seq<Message>, a: nat, b: nat, i: nat)
    requires DistinctIds(log) && a <= b <= |log| && i < |log|
    ensures log[i] in log[a..b] <==> a <= i < b
  {
    if a <= i < b {
      assert log[a..b][i - a] == log[i];
    }
  }

  lemma SliceOfLog(log: seq<Message>, a: nat, b: nat)
    requires DistinctIds(log) && a <= b <= |log|
    ensures DistinctIds(log[a..b]) && forall m :: m in log[a..b] ==> m in log
  {
  }

  lemma SameAsSlice(s: State, log: seq<Message>, shown: seq<Message>, a: nat, b: nat)
    requires DistinctIds(log) && a <= b <= |log|
    requires forall m :: m in shown ==> m in log || Foreign(s, m)
    requires forall m :: Foreign(s, m) ==> m in shown && m !in log
    requires forall i :: 0 <= i < |log| ==> (log[i] in shown <==> Covered(s, i))
    ensures IsSegment(s, a, b) && NoStray(s) ==> forall m :: m in log[a..b] <==> m in shown
    ensures shown == log[a..b] ==> NoStray(s)
    ensures shown == log[a..b] && (forall i :: Covered(s, i) ==> 0 <= i < |log|) ==> IsSegment(s, a, b)
  {
    hide DistinctIds; hide Covered; hide Foreign;
    SliceOfLog(log, a, b);
    forall i | 0 <= i < |log| ensures log[i] in log[a..b] <==> a <= i < b {
      InSlice(log, a, b, i);
    }
  }

  lemma CoveredIsLogged(s: State, channel: ChannelId)
    requires Inv(s, channel)
    ensures forall i :: Covered(s, i) ==> 0 <= i < |Log(s, channel)|
    ensures DistinctIds(Log(s, channel))
  {
    hide Flatten; hide Pages; hide SentTo; hide Cursor; hide ServerPages; hide Holds; hide KeptBack; hide DistinctIds;
  }

  lemma PlacedIsShown(cache: Cache)
    ensures NoDup(Placed(cache)) && forall m :: m in Placed(cache) <==> m in Shown(cache)
  {
    DedupKeepsEachId(Flatten(Pages(cache)));
    DistinctHasNoDup(Placed(cache));
    SortingKeeps(Placed(cache));
  }

  lemma SliceInPlace(s: State, log: seq<Message>, a: nat, b: nat)
    requires IsSegment(s, a, b) && a <= b <= |log|
    ensures var p := log[a..b];
      InPlace(s, log) <==> forall i, j :: 0 <= i < j < |p| ==>
        p[i].sentAt < p[j].sentAt || (p[i].sentAt == p[j].sentAt && Before(Placed(s.hook.cache), p[i], p[j]))
  {
    hide Covered; hide Before; hide Placed;
    var p := log[a..b];
    if InPlace(s, log) {
      forall i, j | 0 <= i < j < |p|
        ensures p[i].sentAt < p[j].sentAt || (p[i].sentAt == p[j].sentAt && Before(Placed(s.hook.cache), p[i], p[j]))
      {
        assert p[i] == log[a + i] && p[j] == log[a + j] && Covered(s, a + i) && Covered(s, a + j);
      }
    } else {
      var i, j :| 0 <= i < j < |log| && Covered(s, i) && Covered(s, j)
        && !(log[i].sentAt < log[j].sentAt
             || (log[i].sentAt == log[j].sentAt && Before(Placed(s.hook.cache), log[i], log[j])));
      assert p[i - a] == log[i] && p[j - a] == log[j];
    }
  }

  // A stretch of the log that is covered is shown as the log has it exactly if nothing
  // has strayed in, times never go back in it, and no two messages of one moment are
  // placed the wrong way round.
  lemma ShownIsTheSegmentIff(cap: nat, channel: ChannelId, states: seq<State>, events: seq<Event>, n: nat, a: nat,
                             b: nat)
    requires Run(cap, channel, states, events) && n < |states|
    requires IsSegment(states[n], a, b) && a <= b <= |Log(states[n], channel)|
    ensures Shown(states[n].hook.cache) == Log(states[n], channel)[a..b]
      <==> NoStray(states[n]) && InPlace(states[n], Log(states[n], channel))
  {
    var s, log := states[n], Log(states[n], channel);
    var placed, segment := Placed(s.hook.cache), log[a..b];
    ShownIsCovered(cap, channel, states, events, n);
    RunKeepsInv(cap, channel, states, events, n);
    CoveredIsLogged(s, channel);
    SameAsSlice(s, log, Shown(s.hook.cache), a, b);
    SliceOfLog(log, a, b);
    DistinctHasNoDup(segment);
    PlacedIsShown(s.hook.cache);
    SliceInPlace(s, log, a, b);
    if NoStray(s) {
      hide NoStray;
      SortedAsIff(placed, segment) by {
        hide Run; hide Inv; hide Log; hide Placed; hide Shown; hide Sorted; hide Covered; hide NoDup;
      }
    }
  }

  ghost predicate ShowsStretch(s: State, channel: ChannelId, a: int, b: int) {
    0 <= a <= b <= |Log(s, channel)| && Shown(s.hook.cache) == Log(s, channel)[a..b]
  }

  // The client's view, end to end, in every run: the list is some stretch of the send
  // log if and only if nothing is missing, nothing is foreign and nothing is out of place.
  lemma ViewIsLogSegmentIff(cap: nat, channel: ChannelId, states: seq<State>, events: seq<Event>, n: nat)
    requires Run(cap, channel, states, events) && n < |states|
    ensures (exists a, b :: ShowsStretch(states[n], channel, a, b))
      <==> Seamless(states[n]) && NoStray(states[n]) && InPlace(states[n], Log(states[n], channel))
  {
    var s := states[n];
    RunKeepsInv(cap, channel, states, events, n);
    hide Run;
    if a, b :| ShowsStretch(s, channel, a, b) {
      ShownIsCovered(cap, channel, states, events, n);
      CoveredIsLogged(s, channel);
      SameAsSlice(s, Log(s, channel), Shown(s.hook.cache), a, b);
      hide Shown; hide Log; hide Sorted; hide InPlace; hide Inv; hide DistinctIds; hide NoStray;
      BoundsInOrder(s, channel);
      SegmentIsSeamless(s, a, b);
      ShownIsTheSegmentIff(cap, channel, states, events, n, a, b);
    }
    if Seamless(s) && NoStray(s) && InPlace(s, Log(s, channel)) {
      hide Shown; hide InPlace; hide Log; hide Inv; hide NoStray;
      var a, b := SeamlessIsSegment(s, channel);
      ShownIsTheSegmentIff(cap, channel, states, events, n, a, b);
      assert ShowsStretch(s, channel, a, b);
    }
  }

  lemma BoundsInOrder(s: State, channel: ChannelId)
    requires Inv(s, channel)
    ensures s.lo <= s.hi
  {
  }

  ghost predicate TimesIncrease(log: seq<Message>) {
    forall i, j :: 0 <= i < j < |log| ==> log[i].sentAt < log[j].sentAt
  }

  // ----- A stream in the order of the log -----

  // The stream has delivered the log from start on, without a gap. The module
  // LiveDelivery shows that it does while requests run as a whole.
  ghost predicate InOrder(s: State, start: nat) {
    forall k :: 0 <= k < |s.arrived| ==> s.arrived[k] == Logged(start + k)
  }

  function Reached(s: State, start: nat): nat {
    start + |s.arrived|
  }

  // The writer was registered before the first page was taken, and the stream has
  // caught up with the oldest page.
  ghost predicate Meet(s: State, start: nat) {
    start <= s.hi && s.lo <= Reached(s, start)
  }

  lemma InOrderLive(s: State, start: nat, i: int)
    requires InOrder(s, start)
    ensures Live(s, i) <==> s.hook.initialFetched && start <= i < Reached(s, start)
  {
    if start <= i < Reached(s, start) {
      assert s.arrived[i - start] == Logged(i);
    }
  }

  // Then there is no gap exactly if nothing has come live yet, no page showed
  // anything, or the two parts meet.
  lemma InOrderGapFreeIff(s: State, channel: ChannelId, start: nat)
    requires Inv(s, channel) && InOrder(s, start)
    ensures Seamless(s) <==> !s.hook.initialFetched || s.arrived == [] || s.lo == s.hi || Meet(s, start)
  {
    BoundsInOrder(s, channel);
    forall i ensures Live(s, i) <==> s.hook.initialFetched && start <= i < Reached(s, start) {
      InOrderLive(s, start, i);
    }
    hide Live; hide Inv; hide InOrder;
    if s.hook.initialFetched && s.arrived != [] && s.lo < s.hi {
      assert Live(s, start) && Live(s, Reached(s, start) - 1);
      if Seamless(s) {
        assert s.hi < start ==> Live(s, s.hi);
        assert Reached(s, start) < s.lo ==> Live(s, Reached(s, start));
      }
    }
  }

  // And with increasing times the list is the log from the oldest page or the first
  // live message to the last message delivered or loaded.
  lemma ViewIsLogSegment(cap: nat, channel: ChannelId, states: seq<State>, events: seq<Event>, n: nat, start: nat)
    requires Run(cap, channel, states, events) && n < |states|
    requires states[n].hook.initialFetched && InOrder(states[n], start) && Meet(states[n], start)
    requires TimesIncrease(Log(states[n], channel))
    ensures var s := states[n];
      var a, b := if s.lo <= start then s.lo else start, if s.hi <= Reached(s, start) then Reached(s, start) else s.hi;
      && 0 <= a <= b <= |Log(s, channel)|
      && Shown(s.hook.cache) == Log(s, channel)[a..b]
  {
    var s := states[n];
    var a, b := if s.lo <= start then s.lo else start, if s.hi <= Reached(s, start) then Reached(s, start) else s.hi;
    RunKeepsInv(cap, channel, states, events, n);
    hide Run; hide Shown; hide SentTo;
    CoveredIsLogged(s, channel);
    forall i ensures Covered(s, i) <==> a <= i < b {
      InOrderLive(s, start, i);
    }
    hide Inv;
    assert 0 <= a <= b <= |Log(s, channel)| by {
      assert a < b ==> Covered(s, a) && Covered(s, b - 1);
    }
    ShownIsTheSegmentIff(cap, channel, states, events, n, a, b);
  }

  // Once the two parts meet they do so for good.
  lemma StillMeets(cap: nat, channel: ChannelId, s: State, e: Event, s': State, start: nat)
    requires Inv(s, channel) && Step(cap, channel, s, e, s')
    requires InOrder(s, start) && s.hook.cache.Cached? && Meet(s, start)
    ensures s'.hook.cache.Cached? && Meet(s', start)
  {
    hide SentTo; hide Flatten; hide Pages; hide ServerPages; hide Holds; hide KeptBack; hide DistinctIds;
    StaysCached(cap, channel, s, e, s');
    if e.OlderPage? {
      OlderAnswer(cap, s.saves, channel, s.taken, s.lo, e.atPage, e.atMore, e.limit);
    }
  }

  lemma StaysCached(cap: nat, channel: ChannelId, s: State, e: Event, s': State)
    requires Inv(s, channel) && Step(cap, channel, s, e, s') && s.hook.cache.Cached?
    ensures s'.hook.cache.Cached? && s'.hi == s.hi
  {
    hide SentTo; hide Flatten; hide Pages; hide ServerPages; hide Holds; hide KeptBack; hide DistinctIds;
    match e {
      case Delivered(position) => InjectIsCached(s.hook.cache, Log(s, channel)[position]);
      case Strayed(message) => InjectIsCached(s.hook.cache, Stamped(message, channel));
      case Drained =>
        DrainKnown(s, channel);
        InjectAllAdds(s.hook.cache, s.hook.pendingLive);
      case _ =>
    }
  }

  // ----- What is never shown -----

  // A message newer than the first page whose sending is over without having
  // reached this client.
  ghost predicate TooLate(s: State, position: nat) {
    s.hook.cache.Cached? && s.hi <= position && position in s.passed
  }

  lemma StaysTooLate(cap: nat, channel: ChannelId, s: State, e: Event, s': State, position: nat)
    requires Inv(s, channel) && Step(cap, channel, s, e, s') && TooLate(s, position)
    ensures TooLate(s', position)
  {
    StaysCached(cap, channel, s, e, s');
    hide Inv; hide SentTo;
  }

  lemma TooLateIsNotShown(cap: nat, channel: ChannelId, states: seq<State>, events: seq<Event>, n: nat, position: nat)
    requires Run(cap, channel, states, events) && n < |states| && TooLate(states[n], position)
    ensures position < |Log(states[n], channel)|
    ensures Log(states[n], channel)[position] !in Shown(states[n].hook.cache)
  {
    RunKeepsInv(cap, channel, states, events, n);
    ShownIsCovered(cap, channel, states, events, n);
    hide Run; hide Shown; hide SentTo;
    assert !Covered(states[n], position);
  }

  lemma RunStep(cap: nat, channel: ChannelId, states: seq<State>, events: seq<Event>, k: nat)
    requires Run(cap, channel, states, events) && k + 1 < |states|
    ensures k < |events| && Step(cap, channel, states[k], events[k], states[k + 1])
  {
    hide Step; hide Initial;
  }

  // It is in no later list, whatever is delivered or loaded.
  lemma {:induction false} MissedForGood(cap: nat, channel: ChannelId, states: seq<State>, events: seq<Event>,
                                         n: nat, m: nat, position: nat)
    requires Run(cap, channel, states, events) && n <= m < |states|
    requires TooLate(states[n], position)
    ensures TooLate(states[m], position) && position < |Log(states[m], channel)|
    ensures Log(states[m], channel)[position] !in Shown(states[m].hook.cache)
    decreases m
  {
    hide *;
    if n < m {
      RunStep(cap, channel, states, events, m - 1);
      MissedForGood(cap, channel, states, events, n, m - 1, position);
      RunKeepsInv(cap, channel, states, events, m - 1);
      StaysTooLate(cap, channel, states[m - 1], events[m - 1], states[m], position);
    }
    TooLateIsNotShown(cap, channel, states, events, m, position);
  }

  // ----- Runs in which the conditions fail -----

  lemma SaveStep(cap: nat, channel: ChannelId, s: State, message: Message)
    requires forall m :: m in s.saves ==> m.id != message.id
    ensures Step(cap, channel, s, Event.Saved(message), s.(saves := s.saves + [message]))
  {
  }

  lemma EmptyRun(cap: nat, channel: ChannelId)
    ensures Run(cap, channel, [State([], FRESH, false, [], {}, 0, 0, 0)], [])
    ensures SentTo([], channel) == []
  {
  }

  lemma Extended(cap: nat, channel: ChannelId, states: seq<State>, events: seq<Event>, e: Event, s: State)
    returns (states': seq<State>, events': seq<Event>)
    requires Run(cap, channel, states, events) && |states| == |events| + 1 && Step(cap, channel, states[|events|], e, s)
    ensures Run(cap, channel, states', events') && states' == states + [s] && events' == events + [e]
  {
    hide Step; hide Initial;
    states', events' := states + [s], events + [e];
  }

  lemma OnePage(cap: nat, channel: ChannelId, log: seq<Message>)
    requires log != [] && DistinctIds(log) && SentTo(log, channel) == log
    ensures |Answer(cap, log, channel, None, |log|, |log|, 1).messages| == 1
  {
    hide SaveAll; hide SentTo; hide Buffers.Of; hide HasMore; hide DistinctIds; hide Buffers.Recent; hide LastN;
    assert log[..|log|] == log;
    RingBufferKeepsTail(cap, log, channel);
    RecentSlicesLog(SaveAll(Empty(cap), log), channel, log, 1);
  }

  // All messages are going to come, in order, and yet there is a gap: until the
  // stream has caught up with the page, what lies between them is not shown.
  lemma LaggingStreamShowsGap(cap: nat, channel: ChannelId, log: seq<Message>)
    returns (states: seq<State>, events: seq<Event>)
    requires |log| == 3 && DistinctIds(log) && SentTo(log, channel) == log
    ensures Run(cap, channel, states, events) && |states| == 8
    ensures events[0] == Subscribed && states[7].hook.initialFetched && Log(states[7], channel) == log
    ensures InOrder(states[7], 0) && states[7].passed == {}
    ensures var shown := Shown(states[7].hook.cache); log[0] in shown && log[1] !in shown && log[2] in shown
  {
    var s0 := State([], FRESH, false, [], {}, 0, 0, 0);
    var s1 := s0.(subscribed := true);
    var s2, s3, s4 := s1.(saves := log[..1]), s1.(saves := log[..2]), s1.(saves := log);
    assert log[..1] == [] + [log[0]] && log[..2] == log[..1] + [log[1]] && log == log[..2] + [log[2]];
    EmptyRun(cap, channel);
    assert Step(cap, channel, s0, Subscribed, s1);
    SaveStep(cap, channel, s1, log[0]);
    SaveStep(cap, channel, s2, log[1]);
    SaveStep(cap, channel, s3, log[2]);
    var s5, s6, s7 := LagSteps(cap, channel, log, s4);
    hide SentTo; hide Shown; hide Run; hide Step; hide Covered; hide DistinctIds;
    states, events := Extended(cap, channel, [s0], [], Subscribed, s1);
    states, events := Extended(cap, channel, states, events, Event.Saved(log[0]), s2);
    states, events := Extended(cap, channel, states, events, Event.Saved(log[1]), s3);
    states, events := Extended(cap, channel, states, events, Event.Saved(log[2]), s4);
    states, events := Extended(cap, channel, states, events, FirstPage(3, 3, 1), s5);
    states, events := Extended(cap, channel, states, events, Delivered(0), s6);
    states, events := Extended(cap, channel, states, events, Drained, s7);
    ShownIsCovered(cap, channel, states, events, 7);
  }

  // The page holds the last message only; the stream has delivered the first only.
  lemma LagSteps(cap: nat, channel: ChannelId, log: seq<Message>, s: State) returns (s5: State, s6: State, s7: State)
    requires |log| == 3 && DistinctIds(log) && SentTo(log, channel) == log
    requires s == State(log, FRESH, true, [], {}, 0, 0, 0)
    ensures Step(cap, channel, s, FirstPage(3, 3, 1), s5)
    ensures Step(cap, channel, s5, Delivered(0), s6) && Step(cap, channel, s6, Drained, s7)
    ensures s7.saves == log && s7.hook.initialFetched && s7.arrived == [Logged(0)] && s7.passed == {}
    ensures Covered(s7, 0) && !Covered(s7, 1) && Covered(s7, 2)
  {
    hide SentTo; hide PageMessages; hide HasMore; hide SaveAll; hide InjectAll; hide DistinctIds;
    assert log[..3] == log;
    OnePage(cap, channel, log);
    var page := Answer(cap, log, channel, None, 3, 3, 1);
    s5 := s.(hook := OnFirstPage(s.hook, page), lo := 2, hi := 3, taken := 3);
    s6 := s5.(hook := OnLive(s5.hook, log[0]), arrived := [Logged(0)]);
    s7 := s6.(hook := Drain(s6.hook));
  }

  lemma EmptyPage(cap: nat, channel: ChannelId, s: State, limit: nat) returns (s': State)
    requires s == State([], FRESH, true, [], {}, 0, 0, 0)
    ensures Step(cap, channel, s, FirstPage(0, 0, limit), s')
    ensures s'.hook.cache.Cached? && s' == s.(hook := Hook(s'.hook.cache, [], false))
  {
    hide Answer; hide SentTo; hide DistinctIds; hide SaveAll; hide PageMessages; hide HasMore;
    var page := NothingToLoad(cap, channel, s.saves, limit);
    s' := s.(hook := OnFirstPage(s.hook, page));
  }

  lemma NothingToLoad(cap: nat, channel: ChannelId, saves: seq<Message>, limit: nat) returns (page: Page)
    requires |saves| == 0
    ensures SentTo(saves[..0], channel) == []
    ensures page == Answer(cap, saves, channel, None, 0, 0, limit) && page.messages == []
  {
    page := Answer(cap, saves, channel, None, 0, 0, limit);
    FirstAnswer(cap, saves, channel, 0, 0, limit);
    hide Answer;
  }

  lemma OnlyOneShown(shown: seq<Message>, first: Message, second: Message)
    requires DistinctIds(shown) && first !in shown && second in shown
    requires forall m :: m in shown ==> m in [first, second]
    ensures shown == [second]
  {
    DistinctHasNoDup(shown);
    assert Elems(shown) == {second};
    EnumeratesLength(shown, {second});
    assert shown[0] in shown;
  }

  // The writer is registered before the first page is taken and before either
  // message is saved, and yet the first message is in no list: its sender had read
  // the room before the client was a member.
  lemma PassedByIsMissing(cap: nat, channel: ChannelId, log: seq<Message>, limit: nat)
    returns (states: seq<State>, events: seq<Event>)
    requires |log| == 2 && DistinctIds(log) && SentTo(log, channel) == log && SentTo(log[..1], channel) == log[..1]
    ensures Run(cap, channel, states, events) && |states| == 8
    ensures events[0] == Subscribed && events[1] == FirstPage(0, 0, limit) && states[7].hook.initialFetched
    ensures Log(states[7], channel) == log && Shown(states[7].hook.cache) == [log[1]]
    ensures TooLate(states[7], 0)
  {
    hide SentTo; hide Shown; hide Run; hide Step; hide Covered; hide DistinctIds; hide TooLate; hide NoStray;
    var s0 := State([], FRESH, false, [], {}, 0, 0, 0);
    EmptyRun(cap, channel);
    var s1, s2, s3 := EarlySteps(cap, channel, log, s0, limit);
    var s4, s5, s6, s7 := PassingSteps(cap, channel, log, s3);
    states, events := Extended(cap, channel, [s0], [], Subscribed, s1);
    states, events := Extended(cap, channel, states, events, FirstPage(0, 0, limit), s2);
    states, events := Extended(cap, channel, states, events, Event.Saved(log[0]), s3);
    states, events := Extended(cap, channel, states, events, PassedBy(0), s4);
    states, events := Extended(cap, channel, states, events, Event.Saved(log[1]), s5);
    states, events := Extended(cap, channel, states, events, Delivered(1), s6);
    states, events := Extended(cap, channel, states, events, Drained, s7);
    OnlySecondShown(cap, channel, states, events, 7, log);
  }

  lemma OnlySecondShown(cap: nat, channel: ChannelId, states: seq<State>, events: seq<Event>, n: nat, log: seq<Message>)
    requires Run(cap, channel, states, events) && n < |states| && |log| == 2 && Log(states[n], channel) == log
    requires !Covered(states[n], 0) && Covered(states[n], 1) && NoStray(states[n])
    ensures Shown(states[n].hook.cache) == [log[1]]
  {
    ShownIsCovered(cap, channel, states, events, n);
    hide Run; hide Shown; hide Covered; hide Log; hide Sorted;
    OnlyOneShown(Shown(states[n].hook.cache), log[0], log[1]);
  }

  lemma EarlySteps(cap: nat, channel: ChannelId, log: seq<Message>, s0: State, limit: nat)
    returns (s1: State, s2: State, s3: State)
    requires |log| == 2 && s0 == State([], FRESH, false, [], {}, 0, 0, 0)
    ensures Step(cap, channel, s0, Subscribed, s1) && Step(cap, channel, s1, FirstPage(0, 0, limit), s2)
    ensures Step(cap, channel, s2, Event.Saved(log[0]), s3)
    ensures s3 == State(log[..1], Hook(s3.hook.cache, [], false), true, [], {}, 0, 0, 0) && s3.hook.cache.Cached?
  {
    hide Answer; hide SentTo;
    s1 := s0.(subscribed := true);
    s2 := EmptyPage(cap, channel, s1, limit);
    assert log[..1] == [] + [log[0]];
    s3 := s2.(saves := log[..1]);
    SaveStep(cap, channel, s2, log[0]);
  }

  lemma PassingSteps(cap: nat, channel: ChannelId, log: seq<Message>, s3: State)
    returns (s4: State, s5: State, s6: State, s7: State)
    requires |log| == 2 && DistinctIds(log) && SentTo(log, channel) == log && SentTo(log[..1], channel) == log[..1]
    requires s3 == State(log[..1], Hook(s3.hook.cache, [], false), true, [], {}, 0, 0, 0) && s3.hook.cache.Cached?
    ensures Step(cap, channel, s3, PassedBy(0), s4) && Step(cap, channel, s4, Event.Saved(log[1]), s5)
    ensures Step(cap, channel, s5, Delivered(1), s6) && Step(cap, channel, s6, Drained, s7)
    ensures s7.saves == log && s7.hook.initialFetched && TooLate(s7, 0)
    ensures !Covered(s7, 0) && Covered(s7, 1) && NoStray(s7)
  {
    hide SentTo;
    assert log == log[..1] + [log[1]];
    s4 := s3.(passed := {0});
    s5 := s4.(saves := log);
    s6 := s5.(hook := OnLive(s5.hook, log[1]), arrived := [Logged(1)]);
    s7 := s6.(hook := Drain(s6.hook));
    assert InjectAll(s6.hook.cache, [log[1]]) == InjectLive(InjectAll(s6.hook.cache, []), log[1]);
    hide InjectLive;
    InjectIsCached(s6.hook.cache, log[1]);
  }

  // Both messages of the buffer, on a page each.
  lemma TwoPages(cap: nat, channel: ChannelId, log: seq<Message>)
    requires |log| == 2 && DistinctIds(log) && SentTo(log, channel) == log && cap != 1
    ensures Answer(cap, log, channel, None, 2, 2, 1) == Page([log[1]], true)
    ensures Answer(cap, log, channel, Some(log[1].id), 2, 2, 1) == Page([log[0]], false)
  {
    hide SentTo; hide SaveAll; hide PageMessages; hide HasMore; hide Buffers.Of;
    assert log[..2] == log;
    var buffers := SaveAll(Empty(cap), log);
    RingBufferKeepsTail(cap, log, channel);
    assert buffers.Of(channel) == log;
    var lo, hi := PageIsSlice(buffers, channel, None, 1);
    assert lo == 1 && hi == 2;
    var low, high := PageIsSlice(buffers, channel, Some(log[1].id), 1);
    IndexOfInTail(log, 1, 0);
    assert log[0..] == log;
    assert low == 0 && high == 1;
  }

  // Two messages sent at the same moment and loaded on different pages are shown
  // the wrong way round: the sort is stable and newer pages come first.
  lemma EqualTimesAreSwapped(cap: nat, channel: ChannelId, log: seq<Message>)
    returns (states: seq<State>, events: seq<Event>)
    requires |log| == 2 && DistinctIds(log) && SentTo(log, channel) == log && SentTo(log[..1], channel) == log[..1]
    requires log[0].sentAt == log[1].sentAt && cap != 1
    ensures Run(cap, channel, states, events) && |states| == 5
    ensures Log(states[4], channel) == log && IsSegment(states[4], 0, 2)
    ensures Shown(states[4].hook.cache) == [log[1], log[0]]
  {
    var s0 := State([], FRESH, false, [], {}, 0, 0, 0);
    EmptyRun(cap, channel);
    var s1, s2 := SaveBoth(cap, channel, log, s0);
    var s3, s4 := LoadBoth(cap, channel, log, s2);
    SwappedOnPages(log[0], log[1]);
    hide SentTo; hide Shown; hide Run; hide Step; hide DistinctIds; hide IsSegment; hide Covered;
    states, events := Extended(cap, channel, [s0], [], Event.Saved(log[0]), s1);
    states, events := Extended(cap, channel, states, events, Event.Saved(log[1]), s2);
    states, events := Extended(cap, channel, states, events, FirstPage(2, 2, 1), s3);
    states, events := Extended(cap, channel, states, events, OlderPage(2, 2, 1), s4);
  }

  lemma SaveBoth(cap: nat, channel: ChannelId, log: seq<Message>, s0: State) returns (s1: State, s2: State)
    requires |log| == 2 && DistinctIds(log) && s0.saves == []
    ensures Step(cap, channel, s0, Event.Saved(log[0]), s1) && Step(cap, channel, s1, Event.Saved(log[1]), s2)
    ensures s2 == s0.(saves := log)
  {
    assert log[..1] == [] + [log[0]] && log == log[..1] + [log[1]];
    s1, s2 := s0.(saves := log[..1]), s0.(saves := log);
    SaveStep(cap, channel, s0, log[0]);
    SaveStep(cap, channel, s1, log[1]);
  }

  lemma LoadBoth(cap: nat, channel: ChannelId, log: seq<Message>, s2: State) returns (s3: State, s4: State)
    requires |log| == 2 && DistinctIds(log) && SentTo(log, channel) == log && cap != 1
    requires s2 == State(log, FRESH, false, [], {}, 0, 0, 0)
    ensures Step(cap, channel, s2, FirstPage(2, 2, 1), s3) && Step(cap, channel, s3, OlderPage(2, 2, 1), s4)
    ensures s4.hook.cache == Cached(Page([log[1]], true), [Page([log[0]], false)])
    ensures s4.saves == log && IsSegment(s4, 0, 2)
  {
    hide Answer; hide SentTo; hide DistinctIds;
    TwoPages(cap, channel, log);
    assert log[..2] == log;
    s3 := s2.(hook := OnFirstPage(s2.hook, Page([log[1]], true)), lo := 1, hi := 2, taken := 2);
    s4 := s3.(hook := OnOlderPage(s3.hook, Page([log[0]], false)), lo := 0);
  }

  lemma SwappedOnPages(older: Message, newer: Message)
    requires older.id != newer.id && older.sentAt == newer.sentAt
    ensures Shown(Cached(Page([newer], true), [Page([older], false)])) == [newer, older]
  {
    var pages := [Page([newer], true), Page([older], false)];
    assert Pages(Cached(Page([newer], true), [Page([older], false)])) == pages;
    OnlyPage(pages[0]);
    assert pages[..1] == [pages[0]];
    FlattenNext(pages, 0);
    FlattenNext(pages, 1);
    assert pages[..2] == pages && pages[..0] == [];
    var q := [newer, older];
    assert Flatten(pages) == q;
    EqualTimesStay(newer, older);
  }

  lemma EqualTimesStay(first: Message, second: Message)
    requires first.id != second.id && first.sentAt == second.sentAt
    ensures StableSort(Dedup([first, second])) == [first, second]
  {
    var q := [first, second];
    assert q[..1] == [first] && [first][..0] == [];
    assert Dedup([first]) == [first];
    assert Dedup(q) == q;
    assert StableSort([first]) == [first];
  }

  // Subscribed, with an empty first page, and drained.
  lemma OpenedEmpty(cap: nat, channel: ChannelId, limit: nat)
    returns (states: seq<State>, events: seq<Event>, page: Page)
    ensures Run(cap, channel, states, events) && |states| == 4
    ensures events == [Subscribed, FirstPage(0, 0, limit), Drained]
    ensures page.messages == []
    ensures states[3] == State([], Hook(Cached(page, []), [], true), true, [], {}, 0, 0, 0)
  {
    hide Answer; hide SentTo; hide SaveAll; hide PageMessages; hide HasMore; hide DistinctIds;
    var s0 := State([], FRESH, false, [], {}, 0, 0, 0);
    EmptyRun(cap, channel);
    var s1 := s0.(subscribed := true);
    page := NothingToLoad(cap, channel, s1.saves, limit);
    var s2 := s1.(hook := OnFirstPage(s1.hook, page));
    var s3 := s2.(hook := Drain(s2.hook));
    assert Step(cap, channel, s0, Subscribed, s1) && Step(cap, channel, s1, FirstPage(0, 0, limit), s2);
    assert Step(cap, channel, s2, Drained, s3);
    hide Run; hide Step;
    states, events := Extended(cap, channel, [s0], [], Subscribed, s1);
    states, events := Extended(cap, channel, states, events, FirstPage(0, 0, limit), s2);
    states, events := Extended(cap, channel, states, events, Drained, s3);
  }

  // The client has left another channel and joined this one, all is loaded and drained;
  // then a message of the other channel is saved, goes to the members its sender read
  // before the client left, and is shown in this channel.
  lemma StrayIsShown(cap: nat, channel: ChannelId, message: Message, limit: nat)
    returns (states: seq<State>, events: seq<Event>)
    requires message.channel != channel
    ensures Run(cap, channel, states, events) && |states| == 6 && events[3] == Event.Saved(message)
    ensures Log(states[5], channel) == [] && Shown(states[5].hook.cache) == [Stamped(message, channel)]
    ensures Seamless(states[5]) && InPlace(states[5], Log(states[5], channel)) && !NoStray(states[5])
  {
    hide *;
    var page, s4, s5;
    states, events, page := OpenedEmpty(cap, channel, limit);
    s4, s5 := StraySteps(cap, channel, message, states[3], page);
    states, events := Extended(cap, channel, states, events, Event.Saved(message), s4);
    states, events := Extended(cap, channel, states, events, Strayed(message), s5);
    ShownIsCovered(cap, channel, states, events, 5);
    OnlyForeignShown(s5, Shown(s5.hook.cache), Stamped(message, channel));
  }

  lemma StraySteps(cap: nat, channel: ChannelId, message: Message, s3: State, page: Page) returns (s4: State, s5: State)
    requires message.channel != channel
    requires s3 == State([], Hook(Cached(page, []), [], true), true, [], {}, 0, 0, 0)
    ensures Step(cap, channel, s3, Event.Saved(message), s4) && Step(cap, channel, s4, Strayed(message), s5)
    ensures Log(s5, channel) == [] && s5.arrived == [Stray(Stamped(message, channel))]
    ensures Foreign(s5, Stamped(message, channel)) && Seamless(s5) && InPlace(s5, Log(s5, channel)) && !NoStray(s5)
  {
    NotOfChannel(message, channel);
    hide InjectLive; hide SentTo; hide DistinctIds; hide Foreign; hide Seamless; hide InPlace; hide NoStray;
    var m := Stamped(message, channel);
    assert [] + [message] == [message] && [] + [Stray(m)] == [Stray(m)];
    s4 := s3.(saves := [message]);
    s5 := s4.(hook := OnLive(s4.hook, m), arrived := [Stray(m)]);
    SaveStep(cap, channel, s3, message);
    OnlyStray(s5, m);
  }

  lemma NotOfChannel(message: Message, channel: ChannelId)
    requires message.channel != channel
    ensures SentTo([message], channel) == []
  {
    assert [message][..0] == [];
  }

  lemma OnlyStray(s: State, m: Message)
    requires s.hook.initialFetched && s.arrived == [Stray(m)] && s.lo == s.hi
    ensures Foreign(s, m) && !NoStray(s) && Seamless(s) && InPlace(s, [])
  {
    assert Foreign(s, m);
  }

  lemma OnlyForeignShown(s: State, shown: seq<Message>, m: Message)
    requires DistinctIds(shown) && m in shown && s.arrived == [Stray(m)]
    requires forall x :: x in shown ==> Foreign(s, x)
    ensures shown == [m]
  {
    DistinctHasNoDup(shown);
    assert Elems(shown) == {m};
    EnumeratesLength(shown, {m});
    assert shown[0] in shown;
  }

  // Two sends overlap, and the message that was saved later is delivered first: if both
  // were sent at one moment, the list has them the wrong way round.
  lemma OvertakenIsSwapped(cap: nat, channel: ChannelId, log: seq<Message>, limit: nat)
    returns (states: seq<State>, events: seq<Event>)
    requires |log| == 2 && DistinctIds(log) && SentTo(log, channel) == log && log[0].sentAt == log[1].sentAt
    ensures Run(cap, channel, states, events) && |states| == 8
    ensures Log(states[7], channel) == log && states[7].arrived == [Logged(1), Logged(0)]
    ensures Seamless(states[7]) && NoStray(states[7]) && Shown(states[7].hook.cache) == [log[1], log[0]]
  {
    var page;
    states, events, page := OpenedEmpty(cap, channel, limit);
    var s3 := states[3];
    var s4, s5 := SaveBoth(cap, channel, log, s3);
    var s6, s7 := ArriveReversed(cap, channel, log, s5, page);
    hide Run; hide Step; hide Shown; hide SentTo; hide Seamless; hide NoStray;
    states, events := Extended(cap, channel, states, events, Event.Saved(log[0]), s4);
    states, events := Extended(cap, channel, states, events, Event.Saved(log[1]), s5);
    states, events := Extended(cap, channel, states, events, Delivered(1), s6);
    states, events := Extended(cap, channel, states, events, Delivered(0), s7);
  }

  lemma ArriveReversed(cap: nat, channel: ChannelId, log: seq<Message>, s5: State, page: Page)
    returns (s6: State, s7: State)
    requires |log| == 2 && DistinctIds(log) && SentTo(log, channel) == log && log[0].sentAt == log[1].sentAt
    requires page.messages == [] && s5 == State(log, Hook(Cached(page, []), [], true), true, [], {}, 0, 0, 0)
    ensures Step(cap, channel, s5, Delivered(1), s6) && Step(cap, channel, s6, Delivered(0), s7)
    ensures s7.saves == log && s7.arrived == [Logged(1), Logged(0)] && Seamless(s7) && NoStray(s7)
    ensures Shown(s7.hook.cache) == [log[1], log[0]]
  {
    assert log[0].id != log[1].id;
    hide SentTo; hide InjectLive; hide Shown; hide DistinctIds;
    ReversedCache(page, log[1], log[0]);
    s6 := s5.(hook := OnLive(s5.hook, log[1]), arrived := [Logged(1)]);
    s7 := s6.(hook := OnLive(s6.hook, log[0]), arrived := [Logged(1), Logged(0)]);
    assert [Logged(1)] + [Logged(0)] == [Logged(1), Logged(0)] && [] + [Logged(1)] == [Logged(1)];
  }

  lemma ReversedCache(page: Page, first: Message, second: Message)
    requires page.messages == [] && first.id != second.id && first.sentAt == second.sentAt
    ensures Shown(InjectLive(InjectLive(Cached(page, []), first), second)) == [first, second]
  {
    var one, both := page.(messages := [first]), page.(messages := [first, second]);
    assert [] + [first] == [first] && [first] + [second] == [first, second];
    assert !OnSomePage(Pages(Cached(page, [])), first.id);
    assert !OnSomePage(Pages(Cached(one, [])), second.id);
    OnlyPage(both);
    EqualTimesStay(first, second);
    hide Flatten; hide Dedup; hide StableSort;
  }
}

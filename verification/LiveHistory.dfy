/**
 History pages and the live stream put together, from the server's send log to
 the list the web client shows. Messages keep being saved and evicted; a page
 answer may have been computed on any earlier state of the buffers, its has_more
 flag on a later one than its messages; sends overlap, so that the stream may
 deliver any saved message at any time after its registration, or never, even one
 of another channel; and the client's own events come in any order.
 */
module LiveHistory {
  import opened Core
  import opened MessageRepository
  import opened ListMessages
  import opened MessageView

  // What the stream delivers: a message of the log, or one of another channel, which
  // the hook does not tell apart and takes for one of the channel it shows.
  datatype Arrival = Logged(position: nat) | Stray(message: Message)

  // arrived lists what the stream has delivered, in the order of arrival; passed are
  // the positions in the log whose sending is over without having reached this client.
  // The pages loaded so far are log[lo..hi]; the latest was computed when taken
  // messages had been saved on the server.
  datatype State = State(saves: seq<Message>, hook: Hook, subscribed: bool, arrived: seq<Arrival>, passed: set<nat>,
                         lo: int, hi: int, taken: nat)

  datatype Event =
    | Saved(message: Message)
    | Subscribed
    | Delivered(position: nat)
    | Strayed(message: Message)
    | PassedBy(position: nat)
    | FirstPage(atPage: nat, atMore: nat, limit: nat)
    | OlderPage(atPage: nat, atMore: nat, limit: nat)
    | Drained

  function Log(s: State, channel: ChannelId): seq<Message> {
    SentTo(s.saves, channel)
  }

  function Answer(cap: nat, saves: seq<Message>, channel: ChannelId, before: Option<MessageId>,
                  atPage: nat, atMore: nat, limit: nat): Page
    requires atPage <= atMore <= |saves|
  {
    var messages := PageMessages(SaveAll(Empty(cap), saves[..atPage]), channel, before, limit);
    Page(messages, HasMore(SaveAll(Empty(cap), saves[..atMore]), channel, messages))
  }

  // Saved, and its sending not over as far as this client is concerned.
  predicate UnderWay(s: State, position: nat, channel: ChannelId) {
    position < |Log(s, channel)| && Logged(position) !in s.arrived && position !in s.passed
  }

  // The message as the hook keeps it.
  function Stamped(message: Message, channel: ChannelId): Message {
    message.(channel := channel)
  }

  ghost predicate Step(cap: nat, channel: ChannelId, s: State, e: Event, s': State) {
    match e
    case Saved(message) =>
      && (forall m :: m in s.saves ==> m.id != message.id)
      && s' == s.(saves := s.saves + [message])
    case Subscribed => !s.subscribed && s' == s.(subscribed := true)
    case Delivered(position) =>
      && s.subscribed && UnderWay(s, position, channel)
      && s' == s.(hook := OnLive(s.hook, Log(s, channel)[position]), arrived := s.arrived + [Logged(position)])
    case Strayed(message) =>
      && s.subscribed && message in s.saves && message.channel != channel
      && Stray(Stamped(message, channel)) !in s.arrived
      && s' == s.(hook := OnLive(s.hook, Stamped(message, channel)),
                  arrived := s.arrived + [Stray(Stamped(message, channel))])
    case PassedBy(position) =>
      && UnderWay(s, position, channel)
      && s' == s.(passed := s.passed + {position})
    case FirstPage(atPage, atMore, limit) =>
      && s.hook.cache.Missing? && atPage <= atMore <= |s.saves|
      && var page := Answer(cap, s.saves, channel, None, atPage, atMore, limit);
      var hi := |SentTo(s.saves[..atPage], channel)|;
      s' == s.(hook := OnFirstPage(s.hook, page), lo := hi - |page.messages|, hi := hi, taken := atPage)
    case OlderPage(atPage, atMore, limit) =>
      && OlderCursor(s.hook.cache).Some? && s.taken <= atPage <= atMore <= |s.saves|
      && var page := Answer(cap, s.saves, channel, OlderCursor(s.hook.cache), atPage, atMore, limit);
      s' == s.(hook := OnOlderPage(s.hook, page), lo := s.lo - |page.messages|, taken := atPage)
    case Drained =>
      && s.hook.cache.Cached? && !s.hook.initialFetched
      && s' == s.(hook := Drain(s.hook))
  }

  ghost predicate Initial(s: State) {
    && DistinctIds(s.saves)
    && s == State(s.saves, FRESH, false, [], {}, 0, 0, 0)
  }

  ghost predicate Run(cap: nat, channel: ChannelId, states: seq<State>, events: seq<Event>) {
    && |states| == |events| + 1
    && Initial(states[0])
    && forall i :: 0 <= i < |events| ==> Step(cap, channel, states[i], events[i], states[i + 1])
  }

  // ----- What the cache holds -----

  // Position i has come live, and is shown once the first page has been drained.
  ghost predicate Live(s: State, i: int) {
    s.hook.initialFetched && i >= 0 && Logged(i) in s.arrived
  }

  // A message of another channel has come live, and is shown like any other.
  ghost predicate Foreign(s: State, m: Message) {
    s.hook.initialFetched && Stray(m) in s.arrived
  }

  // Position i of the log is on a page, or has come live.
  ghost predicate Covered(s: State, i: int) {
    s.lo <= i < s.hi || Live(s, i)
  }

  ghost predicate Arrivals(s: State, log: seq<Message>) {
    && NoDup(s.arrived)
    && (forall i: nat :: Logged(i) in s.arrived ==> i < |log| && i !in s.passed)
    && (forall i :: i in s.passed ==> i < |log|)
  }

  ghost predicate FromElsewhere(saves: seq<Message>, m: Message, channel: ChannelId) {
    exists x :: x in saves && x.channel != channel && m == Stamped(x, channel)
  }

  ghost predicate Strays(s: State, channel: ChannelId) {
    forall m :: Stray(m) in s.arrived ==> FromElsewhere(s.saves, m, channel)
  }

  ghost predicate Positions(s: State, log: seq<Message>) {
    && 0 <= s.lo <= s.hi <= |log|
    && Arrivals(s, log)
    && (s.hook.cache.Missing? ==> s.lo == s.hi && !s.hook.initialFetched)
  }

  // The pages hold exactly the covered messages and those of other channels that came live.
  ghost predicate Holds(s: State, log: seq<Message>) {
    && (forall m :: m in Flatten(Pages(s.hook.cache)) ==>
          Foreign(s, m) || exists i :: 0 <= i < |log| && Covered(s, i) && log[i] == m)
    && (forall i :: 0 <= i < |log| && Covered(s, i) ==> log[i] in Flatten(Pages(s.hook.cache)))
    && (forall m :: Foreign(s, m) ==> m in Flatten(Pages(s.hook.cache)))
  }

  function MessageOf(log: seq<Message>, a: Arrival): Message
    requires a.Logged? ==> a.position < |log|
  {
    if a.Logged? then log[a.position] else a.message
  }

  // What the stream has delivered, as messages.
  ghost function Came(s: State, log: seq<Message>): (came: seq<Message>)
    requires Arrivals(s, log)
    ensures |came| == |s.arrived|
  {
    seq(|s.arrived|, k requires 0 <= k < |s.arrived| =>
      assert s.arrived[k] in s.arrived;
      assert s.arrived[k].Logged? ==> Logged(s.arrived[k].position) in s.arrived;
      MessageOf(log, s.arrived[k]))
  }

  // Until the drain all of it is kept back.
  ghost predicate KeptBack(s: State, log: seq<Message>)
    requires Positions(s, log)
  {
    s.hook.pendingLive == if s.hook.initialFetched then [] else Came(s, log)
  }

  // The next page ends where the loaded pages begin, and the server knew that message.
  ghost predicate Cursor(s: State, channel: ChannelId) {
    && s.taken <= |s.saves|
    && var known := SentTo(s.saves[..s.taken], channel);
    && (s.hook.cache.Cached? ==> s.hi <= |known|)
    && (OlderCursor(s.hook.cache).Some? ==>
          0 <= s.lo < s.hi <= |known| && OlderCursor(s.hook.cache).value == known[s.lo].id)
  }

  // An empty page never says that there is more.
  ghost predicate ServerPages(cache: Cache) {
    forall i :: 0 <= i < |Pages(cache)| ==> (Pages(cache)[i].hasMore ==> Pages(cache)[i].messages != [])
  }

  ghost predicate Inv(s: State, channel: ChannelId) {
    var log := Log(s, channel);
    && DistinctIds(s.saves) && DistinctIds(log)
    && Positions(s, log) && Strays(s, channel) && Holds(s, log) && KeptBack(s, log)
    && Cursor(s, channel) && ServerPages(s.hook.cache)
  }

  // ----- Prefixes of the log -----

  lemma {:induction false} PrefixOfLog(saves: seq<Message>, k: nat, channel: ChannelId)
    requires k <= |saves|
    ensures SentTo(saves[..k], channel) <= SentTo(saves, channel)
    decreases |saves|
  {
    if k < |saves| {
      var init := saves[..|saves| - 1];
      assert init[..k] == saves[..k];
      PrefixOfLog(init, k, channel);
    } else {
      assert saves[..k] == saves;
    }
  }

  lemma PrefixDistinct(saves: seq<Message>, k: nat, channel: ChannelId)
    requires DistinctIds(saves) && k <= |saves|
    ensures DistinctIds(SentTo(saves[..k], channel)) && DistinctIds(SentTo(saves, channel))
  {
    assert DistinctIds(saves[..k]);
    SentToDistinct(saves[..k], channel);
    SentToDistinct(saves, channel);
  }

  // The newest page, taken when k messages had been saved, ends the log of that moment.
  lemma FirstAnswer(cap: nat, saves: seq<Message>, channel: ChannelId, atPage: nat, atMore: nat, limit: nat)
    requires DistinctIds(saves) && atPage <= atMore <= |saves|
    ensures var messages := Answer(cap, saves, channel, None, atPage, atMore, limit).messages;
      var hi := |SentTo(saves[..atPage], channel)|;
      && |messages| <= hi <= |SentTo(saves, channel)|
      && messages == SentTo(saves, channel)[hi - |messages|..hi]
  {
    hide SaveAll; hide SentTo; hide Buffers.Of;
    var known := SentTo(saves[..atPage], channel);
    PrefixOfLog(saves, atPage, channel);
    RingBufferKeepsTail(cap, saves[..atPage], channel);
    RecentSlicesLog(SaveAll(Empty(cap), saves[..atPage]), channel, known, Min(limit, SERVER_MAX_LIMIT));
  }

  // An older page ends just before its cursor, or is empty once that is evicted.
  lemma OlderAnswer(cap: nat, saves: seq<Message>, channel: ChannelId, taken: nat, lo: nat,
                    atPage: nat, atMore: nat, limit: nat)
    requires DistinctIds(saves) && taken <= atPage <= atMore <= |saves|
    requires lo < |SentTo(saves[..taken], channel)|
    ensures var known := SentTo(saves[..taken], channel);
      var messages := Answer(cap, saves, channel, Some(known[lo].id), atPage, atMore, limit).messages;
      && |messages| <= lo <= |SentTo(saves, channel)|
      && messages == SentTo(saves, channel)[lo - |messages|..lo]
      && known <= SentTo(saves[..atPage], channel)
  {
    hide SaveAll; hide SentTo; hide Buffers.Of; hide Buffers.ListBefore; hide HasMore; hide IndexOf;
    var known := SentTo(saves[..atPage], channel);
    assert saves[..atPage][..taken] == saves[..taken];
    PrefixOfLog(saves[..atPage], taken, channel);
    PrefixOfLog(saves, atPage, channel);
    PrefixDistinct(saves, atPage, channel);
    RingBufferKeepsTail(cap, saves[..atPage], channel);
    ListBeforeSlicesLog(SaveAll(Empty(cap), saves[..atPage]), channel, known, lo, Min(limit, SERVER_MAX_LIMIT));
  }

  // ----- The cache after each event -----

  lemma {:induction false} InFlatten(pages: seq<Page>, m: Message)
    ensures m in Flatten(pages) <==> exists i :: 0 <= i < |pages| && m in pages[i].messages
  {
    if pages != [] {
      var init := pages[..|pages| - 1];
      InFlatten(init, m);
      if i :| 0 <= i < |init| && m in init[i].messages {
        assert m in pages[i].messages;
      }
    }
  }

  // Injecting adds the message unless it is there, and moves nothing else.
  lemma InjectAdds(cache: Cache, message: Message, m: Message)
    requires cache.Cached?
    requires forall x :: x in Flatten(Pages(cache)) && x.id == message.id ==> x == message
    ensures m in Flatten(Pages(InjectLive(cache, message))) <==> m in Flatten(Pages(cache)) || m == message
  {
    var pages, injected := Pages(cache), Pages(InjectLive(cache, message));
    InFlatten(pages, m);
    InFlatten(injected, m);
    if OnSomePage(pages, message.id) {
      var i, j :| 0 <= i < |pages| && 0 <= j < |pages[i].messages| && pages[i].messages[j].id == message.id;
      InFlatten(pages, pages[i].messages[j]);
    } else {
      assert injected[0].messages == pages[0].messages + [message];
      assert forall i :: 1 <= i < |pages| ==> injected[i] == pages[i];
    }
  }

  // Injecting moves the cursor exactly in one case, which the server never
  // produces: a single empty page that claims there is more.
  lemma InjectKeepsCursor(cache: Cache, message: Message)
    requires cache.Cached?
    ensures OlderCursor(InjectLive(cache, message)) == OlderCursor(cache)
      <==> !(cache.older == [] && cache.first.messages == [] && cache.first.hasMore)
    ensures ServerPages(cache) ==>
      ServerPages(InjectLive(cache, message)) && OlderCursor(InjectLive(cache, message)) == OlderCursor(cache)
  {
    var pages, injected := Pages(cache), Pages(InjectLive(cache, message));
    if cache.older == [] && cache.first.messages == [] && cache.first.hasMore {
      assert !OnSomePage(pages, message.id);
      assert pages[0] == cache.first;
    } else if !OnSomePage(pages, message.id) {
      assert forall i :: 1 <= i < |pages| ==> injected[i] == pages[i];
    }
  }

  // Whatever has the same id is the same message.
  ghost predicate IdsTell(q: seq<Message>) {
    forall x, y :: x in q && y in q && x.id == y.id ==> x == y
  }

  lemma {:induction false} InjectAllAdds(cache: Cache, messages: seq<Message>)
    requires cache.Cached? && ServerPages(cache) && IdsTell(Flatten(Pages(cache)) + messages)
    ensures InjectAll(cache, messages).Cached? && ServerPages(InjectAll(cache, messages))
    ensures OlderCursor(InjectAll(cache, messages)) == OlderCursor(cache)
    ensures forall m :: m in Flatten(Pages(InjectAll(cache, messages))) <==> m in Flatten(Pages(cache)) || m in messages
  {
    hide Flatten; hide Pages; hide ServerPages; hide OlderCursor; hide DistinctIds;
    if messages != [] {
      var init, last := messages[..|messages| - 1], messages[|messages| - 1];
      assert messages == init + [last];
      InjectAllAdds(cache, init);
      var before := InjectAll(cache, init);
      InjectKeepsCursor(before, last);
      forall m ensures m in Flatten(Pages(InjectLive(before, last))) <==> m in Flatten(Pages(before)) || m == last {
        InjectAdds(before, last, m);
      }
    }
  }

  // ----- Ids -----

  lemma ElsewhereIsNotLogged(saves: seq<Message>, channel: ChannelId, m: Message)
    requires DistinctIds(saves) && FromElsewhere(saves, m, channel)
    ensures forall x :: x in SentTo(saves, channel) ==> x.id != m.id
  {
    SentToIsSaved(saves, channel);
  }

  lemma ElsewhereIsOne(saves: seq<Message>, channel: ChannelId, m: Message, n: Message)
    requires DistinctIds(saves) && FromElsewhere(saves, m, channel) && FromElsewhere(saves, n, channel)
    ensures m.id == n.id ==> m == n
  {
  }

  // Of the messages of the log and those that strayed in, no two share an id.
  lemma KnownByIds(s: State, channel: ChannelId, q: seq<Message>)
    requires DistinctIds(s.saves) && DistinctIds(Log(s, channel)) && Strays(s, channel)
    requires forall m :: m in q ==> m in Log(s, channel) || Stray(m) in s.arrived
    ensures IdsTell(q)
  {
    hide FromElsewhere; hide SentTo;
    forall x, y | x in q && y in q && x.id == y.id ensures x == y {
      if x in Log(s, channel) && y !in Log(s, channel) {
        ElsewhereIsNotLogged(s.saves, channel, y);
      } else if y in Log(s, channel) && x !in Log(s, channel) {
        ElsewhereIsNotLogged(s.saves, channel, x);
      } else if x !in Log(s, channel) {
        hide DistinctIds;
        ElsewhereIsOne(s.saves, channel, x, y);
      }
    }
  }

  // ----- Every event keeps the invariant -----

  lemma LongerLog(s: State, log: seq<Message>, s': State, log': seq<Message>)
    requires Positions(s, log) && Holds(s, log) && KeptBack(s, log) && log <= log'
    requires s' == s.(saves := s'.saves)
    ensures Positions(s', log') && Holds(s', log') && KeptBack(s', log')
  {
    assert forall i :: Covered(s', i) <==> Covered(s, i);
    assert forall m :: Foreign(s', m) <==> Foreign(s, m);
    assert forall i :: 0 <= i < |log| ==> log[i] == log'[i];
    assert forall i :: Covered(s, i) ==> 0 <= i < |log|;
    assert Came(s', log') == Came(s, log);
  }

  lemma StraysKept(s: State, channel: ChannelId, s': State)
    requires Strays(s, channel) && s.saves <= s'.saves && s'.arrived == s.arrived
    ensures Strays(s', channel)
  {
    assert forall x :: x in s.saves ==> x in s'.saves;
    forall m | Stray(m) in s'.arrived ensures FromElsewhere(s'.saves, m, channel) {
      assert FromElsewhere(s.saves, m, channel);
    }
  }

  lemma SavedKeepsInv(s: State, channel: ChannelId, message: Message)
    requires Inv(s, channel) && forall m :: m in s.saves ==> m.id != message.id
    ensures Inv(s.(saves := s.saves + [message]), channel)
  {
    hide Flatten; hide Pages; hide ServerPages; hide OlderCursor; hide Holds; hide KeptBack; hide Strays;
    var s' := s.(saves := s.saves + [message]);
    assert s'.saves[..|s'.saves| - 1] == s.saves;
    assert s'.saves[..s.taken] == s.saves[..s.taken];
    assert DistinctIds(s'.saves);
    SentToDistinct(s'.saves, channel);
    StraysKept(s, channel, s');
    LongerLog(s, Log(s, channel), s', Log(s', channel));
  }

  lemma SubscribedKeepsInv(cap: nat, s: State, channel: ChannelId, s': State)
    requires Inv(s, channel) && Step(cap, channel, s, Subscribed, s')
    ensures Inv(s', channel)
  {
    hide Flatten; hide Pages; hide ServerPages; hide OlderCursor; hide SentTo; hide DistinctIds;
    assert forall i :: Covered(s', i) <==> Covered(s, i);
    assert forall m :: Foreign(s', m) <==> Foreign(s, m);
    assert Came(s', Log(s, channel)) == Came(s, Log(s, channel));
  }

  lemma PassedByKeepsInv(cap: nat, s: State, channel: ChannelId, position: nat, s': State)
    requires Inv(s, channel) && Step(cap, channel, s, PassedBy(position), s')
    ensures Inv(s', channel)
  {
    hide Flatten; hide Pages; hide ServerPages; hide OlderCursor; hide SentTo; hide DistinctIds;
    assert forall i :: Covered(s', i) <==> Covered(s, i);
    assert forall m :: Foreign(s', m) <==> Foreign(s, m);
    assert Came(s', Log(s, channel)) == Came(s, Log(s, channel));
  }

  // ----- Live messages -----

  lemma ArrivalAdds(s: State, log: seq<Message>, a: Arrival, s': State)
    requires Arrivals(s, log) && a !in s.arrived && (a.Logged? ==> a.position < |log| && a.position !in s.passed)
    requires s'.arrived == s.arrived + [a] && s'.passed == s.passed
    ensures Arrivals(s', log) && Came(s', log) == Came(s, log) + [MessageOf(log, a)]
    ensures forall b :: b in s'.arrived <==> b in s.arrived || b == a
  {
  }

  lemma AllKnown(s: State, channel: ChannelId)
    requires Inv(s, channel)
    ensures forall m :: m in Flatten(Pages(s.hook.cache)) ==> m in Log(s, channel) || Stray(m) in s.arrived
    ensures forall m :: m in s.hook.pendingLive ==> m in Log(s, channel) || Stray(m) in s.arrived
  {
    var log := Log(s, channel);
    forall m | m in s.hook.pendingLive ensures m in log || Stray(m) in s.arrived {
      var k :| 0 <= k < |s.arrived| && Came(s, log)[k] == m;
      assert s.arrived[k] in s.arrived;
    }
  }

  // A message that comes live: of the log, or of another channel.
  lemma ArrivalKeepsHolds(s: State, channel: ChannelId, a: Arrival, s': State)
    requires Inv(s, channel) && Arrivals(s', Log(s, channel)) && Strays(s', channel)
    requires s'.arrived == s.arrived + [a] && (a.Logged? ==> a.position < |Log(s, channel)|)
    requires s' == s.(hook := OnLive(s.hook, MessageOf(Log(s, channel), a)), arrived := s'.arrived)
    ensures Holds(s', Log(s, channel)) && (s.hook.cache.Cached? ==> s'.hook.cache.Cached?)
    ensures ServerPages(s'.hook.cache) && OlderCursor(s'.hook.cache) == OlderCursor(s.hook.cache)
  {
    hide Flatten; hide Pages; hide ServerPages; hide OlderCursor; hide SentTo; hide InjectLive; hide KeptBack;
    hide Arrivals; hide Cursor; hide Came; hide DistinctIds;
    var log, m := Log(s, channel), MessageOf(Log(s, channel), a);
    assert forall b :: b in s'.arrived <==> b in s.arrived || b == a;
    assert forall i :: Covered(s', i) <==> Covered(s, i) || (s.hook.initialFetched && a.Logged? && a.position == i);
    assert forall x :: Foreign(s', x) <==> Foreign(s, x) || (s.hook.initialFetched && a == Stray(x));
    if s.hook.initialFetched {
      AllKnown(s, channel);
      KnownByIds(s', channel, Flatten(Pages(s.hook.cache)) + [m]);
      hide Strays;
      InjectKeepsCursor(s.hook.cache, m);
      InjectIsCached(s.hook.cache, m);
      forall x ensures x in Flatten(Pages(s'.hook.cache)) <==> x in Flatten(Pages(s.hook.cache)) || x == m {
        InjectAdds(s.hook.cache, m, x);
      }
    }
  }

  lemma DeliveredKeepsInv(cap: nat, s: State, channel: ChannelId, position: nat, s': State)
    requires Inv(s, channel) && Step(cap, channel, s, Delivered(position), s')
    ensures Inv(s', channel)
  {
    hide Flatten; hide Pages; hide ServerPages; hide OlderCursor; hide SentTo; hide InjectLive; hide Holds;
    hide FromElsewhere; hide DistinctIds;
    ArrivalAdds(s, Log(s, channel), Logged(position), s');
    ArrivalKeepsHolds(s, channel, Logged(position), s');
    hide Arrivals; hide Came;
  }

  lemma StrayedKeepsInv(cap: nat, s: State, channel: ChannelId, message: Message, s': State)
    requires Inv(s, channel) && Step(cap, channel, s, Strayed(message), s')
    ensures Inv(s', channel)
  {
    hide Flatten; hide Pages; hide ServerPages; hide OlderCursor; hide SentTo; hide InjectLive; hide Holds;
    hide DistinctIds;
    var a := Stray(Stamped(message, channel));
    ArrivalAdds(s, Log(s, channel), a, s');
    assert FromElsewhere(s.saves, a.message, channel);
    hide FromElsewhere;
    assert Strays(s', channel);
    ArrivalKeepsHolds(s, channel, a, s');
    hide Arrivals; hide Came;
  }

  lemma InjectIsCached(cache: Cache, message: Message)
    ensures InjectLive(cache, message).Cached?
  {
  }

  lemma OnlyPage(page: Page)
    ensures Flatten(Pages(Cached(page, []))) == page.messages
  {
    assert [page][..0] == [] && Flatten([]) == [];
  }

  lemma FirstPageHolds(s: State, log: seq<Message>, page: Page)
    requires s.hook == Hook(Cached(page, []), s.hook.pendingLive, false)
    requires 0 <= s.lo <= s.hi <= |log| && page.messages == log[s.lo..s.hi]
    ensures Holds(s, log)
  {
    hide Flatten; hide Pages;
    OnlyPage(page);
    assert forall m :: !Foreign(s, m);
    forall m | m in page.messages ensures exists i :: 0 <= i < |log| && Covered(s, i) && log[i] == m {
      var k :| 0 <= k < |page.messages| && page.messages[k] == m;
      assert Covered(s, s.lo + k);
    }
    assert forall i :: s.lo <= i < s.hi ==> log[i] == page.messages[i - s.lo];
  }

  lemma FirstPageKeepsInv(cap: nat, s: State, channel: ChannelId, atPage: nat, atMore: nat, limit: nat, s': State)
    requires Inv(s, channel) && Step(cap, channel, s, FirstPage(atPage, atMore, limit), s')
    ensures Inv(s', channel)
  {
    hide SentTo; hide PageMessages; hide SaveAll; hide Holds; hide Flatten; hide DistinctIds; hide Buffers.ListBefore;
    FirstAnswer(cap, s.saves, channel, atPage, atMore, limit);
    PrefixOfLog(s.saves, atPage, channel);
    FirstPageHolds(s', Log(s, channel), s'.hook.cache.first);
  }

  lemma OlderPageHolds(s: State, log: seq<Message>, page: Page, s': State)
    requires s.hook.cache.Cached? && Holds(s, log) && 0 <= s'.lo <= s.lo <= |log|
    requires s' == s.(hook := OnOlderPage(s.hook, page), lo := s'.lo, taken := s'.taken)
    requires page.messages == log[s'.lo..s.lo] && s.lo <= s.hi
    ensures Holds(s', log)
  {
    var pages := Pages(s.hook.cache);
    assert Pages(s'.hook.cache) == pages + [page] && (pages + [page])[..|pages|] == pages;
    assert Flatten(pages + [page]) == Flatten(pages) + page.messages;
    hide Flatten; hide Pages;
    assert forall i :: Covered(s', i) <==> Covered(s, i) || s'.lo <= i < s.lo;
    assert forall i :: s'.lo <= i < s.lo ==> log[i] == page.messages[i - s'.lo];
  }

  lemma OlderPageKeepsServer(cache: Cache, page: Page)
    requires cache.Cached? && ServerPages(cache) && (page.hasMore ==> page.messages != [])
    ensures ServerPages(cache.(older := cache.older + [page]))
  {
    assert Pages(cache.(older := cache.older + [page])) == Pages(cache) + [page];
  }

  // What an older page does not touch.
  lemma OlderPageSpares(s: State, log: seq<Message>, channel: ChannelId, page: Page, s': State)
    requires Positions(s, log) && Strays(s, channel) && KeptBack(s, log) && s.hook.cache.Cached? && 0 <= s'.lo <= s.lo
    requires s' == s.(hook := OnOlderPage(s.hook, page), lo := s'.lo, taken := s'.taken)
    ensures Positions(s', log) && Strays(s', channel) && KeptBack(s', log)
  {
    hide FromElsewhere; hide NoDup;
    assert Came(s', log) == Came(s, log);
  }

  lemma OlderPageCursor(s: State, channel: ChannelId, page: Page, s': State)
    requires Cursor(s, channel) && OlderCursor(s.hook.cache).Some? && s.taken <= s'.taken <= |s'.saves|
    requires s' == s.(hook := OnOlderPage(s.hook, page), lo := s.lo - |page.messages|, taken := s'.taken)
    requires SentTo(s.saves[..s.taken], channel) <= SentTo(s'.saves[..s'.taken], channel)
    requires |page.messages| <= s.lo && page.messages == SentTo(s'.saves[..s'.taken], channel)[s'.lo..s.lo]
    ensures Cursor(s', channel)
  {
    hide SentTo;
    assert s'.hook.cache.older[|s'.hook.cache.older| - 1] == page;
  }

  lemma OlderPageKeepsInv(cap: nat, s: State, channel: ChannelId, atPage: nat, atMore: nat, limit: nat, s': State)
    requires Inv(s, channel) && Step(cap, channel, s, OlderPage(atPage, atMore, limit), s')
    ensures Inv(s', channel)
  {
    hide SentTo; hide PageMessages; hide SaveAll; hide Holds; hide Flatten; hide DistinctIds; hide Buffers.ListBefore;
    hide ServerPages; hide Pages; hide Strays; hide KeptBack; hide Arrivals;
    OlderAnswer(cap, s.saves, channel, s.taken, s.lo, atPage, atMore, limit);
    PrefixOfLog(s.saves, atPage, channel);
    var page := Answer(cap, s.saves, channel, OlderCursor(s.hook.cache), atPage, atMore, limit);
    OlderPageHolds(s, Log(s, channel), page, s');
    OlderPageKeepsServer(s.hook.cache, page);
    OlderPageSpares(s, Log(s, channel), channel, page, s');
    OlderPageCursor(s, channel, page, s');
    hide Cursor; hide Positions; hide OlderCursor; hide Answer;
  }

  lemma DrainKnown(s: State, channel: ChannelId)
    requires Inv(s, channel)
    ensures IdsTell(Flatten(Pages(s.hook.cache)) + s.hook.pendingLive)
  {
    AllKnown(s, channel);
    hide Flatten; hide Pages; hide ServerPages; hide OlderCursor; hide SentTo; hide Positions; hide Holds;
    hide KeptBack;
    hide Cursor; hide Strays; hide DistinctIds;
    KnownByIds(s, channel, Flatten(Pages(s.hook.cache)) + s.hook.pendingLive);
  }

  lemma DrainedHolds(s: State, channel: ChannelId, s': State)
    requires Inv(s, channel) && !s.hook.initialFetched && s' == s.(hook := Drain(s.hook)) && s'.hook.initialFetched
    requires forall m ::
      m in Flatten(Pages(s'.hook.cache)) <==> m in Flatten(Pages(s.hook.cache)) || m in s.hook.pendingLive
    ensures Holds(s', Log(s, channel))
  {
    hide Flatten; hide Pages; hide ServerPages; hide OlderCursor; hide SentTo; hide Drain; hide Cursor; hide Strays;
    hide DistinctIds;
    var log := Log(s, channel);
    assert forall i: nat :: Covered(s', i) <==> Covered(s, i) || Logged(i) in s.arrived;
    assert forall m :: Foreign(s', m) <==> Stray(m) in s.arrived;
    forall m | m in s.hook.pendingLive
      ensures Foreign(s', m) || exists i :: 0 <= i < |log| && Covered(s', i) && log[i] == m
    {
      var k :| 0 <= k < |s.arrived| && Came(s, log)[k] == m;
      assert s.arrived[k] in s.arrived;
    }
    forall a | a in s.arrived ensures (a.Logged? ==> a.position < |log|) && MessageOf(log, a) in s.hook.pendingLive {
      var k :| 0 <= k < |s.arrived| && s.arrived[k] == a;
      assert Came(s, log)[k] == MessageOf(log, a);
    }
  }

  lemma DrainedKeepsInv(cap: nat, s: State, channel: ChannelId, s': State)
    requires Inv(s, channel) && Step(cap, channel, s, Drained, s')
    ensures Inv(s', channel)
  {
    hide Flatten; hide Pages; hide ServerPages; hide OlderCursor; hide SentTo; hide InjectAll;
    DrainKnown(s, channel);
    InjectAllAdds(s.hook.cache, s.hook.pendingLive);
    DrainedHolds(s, channel, s');
  }

  lemma StepKeepsInv(cap: nat, channel: ChannelId, s: State, e: Event, s': State)
    requires Inv(s, channel) && Step(cap, channel, s, e, s')
    ensures Inv(s', channel)
  {
    hide Inv;
    match e {
      case Saved(message) => SavedKeepsInv(s, channel, message);
      case Subscribed => SubscribedKeepsInv(cap, s, channel, s');
      case Delivered(position) => DeliveredKeepsInv(cap, s, channel, position, s');
      case Strayed(message) => StrayedKeepsInv(cap, s, channel, message, s');
      case PassedBy(position) => PassedByKeepsInv(cap, s, channel, position, s');
      case FirstPage(atPage, atMore, limit) => FirstPageKeepsInv(cap, s, channel, atPage, atMore, limit, s');
      case OlderPage(atPage, atMore, limit) => OlderPageKeepsInv(cap, s, channel, atPage, atMore, limit, s');
      case Drained => DrainedKeepsInv(cap, s, channel, s');
    }
  }

  lemma {:induction false} RunKeepsInv(cap: nat, channel: ChannelId, states: seq<State>, events: seq<Event>, n: nat)
    requires Run(cap, channel, states, events) && n < |states|
    ensures Inv(states[n], channel)
    decreases n
  {
    if n == 0 {
      SentToDistinct(states[0].saves, channel);
      assert states[0].saves[..0] == [];
    } else {
      hide Inv; hide Step; hide Initial;
      RunKeepsInv(cap, channel, states, events, n - 1);
      assert Step(cap, channel, states[n - 1], events[n - 1], states[n - 1 + 1]);
      StepKeepsInv(cap, channel, states[n - 1], events[n - 1], states[n]);
    }
  }

  // ----- What is shown -----

  lemma {:induction false} DedupKeepsEachId(q: seq<Message>)
    ensures DistinctIds(Dedup(q))
    ensures forall m :: m in Dedup(q) ==> m in q
    ensures forall m :: m in q ==> HasId(Dedup(q), m.id)
  {
    if q != [] {
      var init, last := q[..|q| - 1], q[|q| - 1];
      assert q == init + [last];
      DedupKeepsEachId(init);
      StillHasIds(Dedup(init), last);
      assert Dedup(q) == Dedup(init) || Dedup(q) == Dedup(init) + [last];
    }
  }

  lemma StillHasIds(q: seq<Message>, last: Message)
    ensures forall id :: HasId(q, id) ==> HasId(q + [last], id)
    ensures HasId(q + [last], last.id)
  {
    forall id | HasId(q, id) ensures HasId(q + [last], id) {
      var i :| 0 <= i < |q| && q[i].id == id;
      assert (q + [last])[i].id == id;
    }
    assert (q + [last])[|q|].id == last.id;
  }

  lemma SortingKeepsMessages(q: seq<Message>)
    ensures forall m :: m in StableSort(q) <==> m in q
  {
    StableSortSorts(q, 0);
    hide StableSort;
    forall m ensures m in StableSort(q) <==> m in q {
      assert m in StableSort(q) <==> m in multiset(StableSort(q));
      assert m in q <==> m in multiset(q);
    }
  }

  lemma SortingKeeps(q: seq<Message>)
    requires DistinctIds(q)
    ensures Sorted(StableSort(q)) && DistinctIds(StableSort(q))
    ensures forall m :: m in StableSort(q) <==> m in q
  {
    StableSortSorts(q, 0);
    SortingKeepsMessages(q);
    hide StableSort; hide Sorted;
    var sorted := StableSort(q);
    forall i, j | 0 <= i < j < |sorted| ensures sorted[i].id != sorted[j].id {
      assert sorted[i] in q && sorted[j] in q;
      if sorted[i] == sorted[j] {
        TwiceInMultiset(sorted, i, j);
        OnceInMultiset(q, sorted[i]);
      }
    }
  }

  lemma TwiceInMultiset(q: seq<Message>, i: nat, j: nat)
    requires i < j < |q| && q[i] == q[j]
    ensures multiset(q)[q[i]] >= 2
  {
    assert q == q[..j] + [q[j]] + q[j + 1..];
    assert q[i] == q[..j][i] && q[i] in multiset(q[..j]);
  }

  lemma {:induction false} OnceInMultiset(q: seq<Message>, m: Message)
    requires DistinctIds(q)
    ensures multiset(q)[m] <= 1
  {
    if q != [] {
      var init, last := q[..|q| - 1], q[|q| - 1];
      assert q == init + [last];
      OnceInMultiset(init, m);
      if m == last {
        assert m !in init;
        assert m !in multiset(init);
      }
    }
  }

  // In every run the list shows exactly the covered messages and those that strayed in
  // from other channels, each once, by time.
  lemma ShownIsCovered(cap: nat, channel: ChannelId, states: seq<State>, events: seq<Event>, n: nat)
    requires Run(cap, channel, states, events) && n < |states|
    ensures var log, shown := Log(states[n], channel), Shown(states[n].hook.cache);
      && DistinctIds(shown) && Sorted(shown)
      && (forall i :: 0 <= i < |log| ==> (log[i] in shown <==> Covered(states[n], i)))
      && (forall m :: Foreign(states[n], m) ==> m in shown && m !in log)
      && (forall m :: m in shown ==> m in log || Foreign(states[n], m))
  {
    RunKeepsInv(cap, channel, states, events, n);
    hide Run;
    ShownIn(states[n], channel);
  }

  lemma ShownIn(s: State, channel: ChannelId)
    requires Inv(s, channel)
    ensures var log, shown := Log(s, channel), Shown(s.hook.cache);
      && DistinctIds(shown) && Sorted(shown)
      && (forall i :: 0 <= i < |log| ==> (log[i] in shown <==> Covered(s, i)))
      && (forall m :: Foreign(s, m) ==> m in shown && m !in log)
      && (forall m :: m in shown ==> m in log || Foreign(s, m))
  {
    var log, q := Log(s, channel), Flatten(Pages(s.hook.cache));
    hide Flatten; hide Pages; hide SentTo; hide Covered; hide Dedup; hide StableSort; hide Sorted; hide Cursor;
    hide ServerPages; hide FromElsewhere; hide KeptBack; hide Positions;
    AllKnown(s, channel);
    KnownByIds(s, channel, q);
    DedupKeepsEachId(q);
    SortingKeeps(Dedup(q));
    forall m ensures m in Dedup(q) <==> m in q {
      if m in q {
        var k :| 0 <= k < |Dedup(q)| && Dedup(q)[k].id == m.id;
        assert Dedup(q)[k] in Dedup(q);
      }
    }
    forall m | Foreign(s, m) ensures m !in log {
      ElsewhereIsNotLogged(s.saves, channel, m);
    }
  }
}

/**
 Loading older pages until there are none: how far it gets, and when it ends.
 */
module HistoryPaging {
  import opened Core
  import opened MessageRepository
  import opened ListMessages
  import opened MessageView
  import opened LiveHistory

  ghost predicate CanLoadOlder(cap: nat, channel: ChannelId, s: State) {
    exists e: Event, s': State :: e.OlderPage? && Step(cap, channel, s, e, s')
  }

  predicate IsPage(e: Event) {
    e.FirstPage? || e.OlderPage?
  }

  // In a reachable state the cursor alone decides.
  lemma CursorDecides(cap: nat, channel: ChannelId, s: State)
    requires Inv(s, channel)
    ensures CanLoadOlder(cap, channel, s) <==> OlderCursor(s.hook.cache).Some?
  {
    hide OlderCursor; hide Answer; hide ServerPages; hide Holds; hide KeptBack; hide Positions; hide Strays;
    hide DistinctIds;
    if OlderCursor(s.hook.cache).Some? {
      var n := |s.saves|;
      var page := Answer(cap, s.saves, channel, OlderCursor(s.hook.cache), n, n, 1);
      var s' := s.(hook := OnOlderPage(s.hook, page), lo := s.lo - |page.messages|, taken := n);
      assert Step(cap, channel, s, OlderPage(n, n, 1), s');
    }
  }

  // ----- When loading ends -----

  // Everything but a page leaves the cursor and the loaded stretch alone.
  lemma OthersKeepCursor(cap: nat, channel: ChannelId, s: State, e: Event, s': State)
    requires Inv(s, channel) && Step(cap, channel, s, e, s') && !IsPage(e) && s.hook.cache.Cached?
    ensures OlderCursor(s'.hook.cache) == OlderCursor(s.hook.cache) && s'.lo == s.lo && s'.hook.cache.Cached?
  {
    hide OlderCursor; hide InjectLive; hide ServerPages; hide Holds; hide KeptBack; hide Positions; hide Strays;
    hide DistinctIds; hide Cursor; hide InjectAll;
    match e {
      case Delivered(position) => LiveKeepsCursor(s.hook, Log(s, channel)[position]);
      case Strayed(message) => LiveKeepsCursor(s.hook, Stamped(message, channel));
      case Drained =>
        DrainKnown(s, channel);
        InjectAllAdds(s.hook.cache, s.hook.pendingLive);
      case _ =>
    }
  }

  lemma LiveKeepsCursor(h: Hook, message: Message)
    requires ServerPages(h.cache) && h.cache.Cached?
    ensures OlderCursor(OnLive(h, message).cache) == OlderCursor(h.cache) && OnLive(h, message).cache.Cached?
  {
    InjectKeepsCursor(h.cache, message);
    hide OlderCursor; hide ServerPages;
  }

  lemma {:induction false} CursorStays(cap: nat, channel: ChannelId, states: seq<State>, events: seq<Event>, i: nat,
                                       j: nat)
    requires Run(cap, channel, states, events) && i <= j < |states| && states[i].hook.cache.Cached?
    requires forall k :: i <= k < j && k < |events| ==> !IsPage(events[k])
    ensures OlderCursor(states[j].hook.cache) == OlderCursor(states[i].hook.cache) && states[j].lo == states[i].lo
    ensures states[j].hook.cache.Cached?
    decreases j
  {
    hide OlderCursor; hide Step; hide Initial; hide Inv;
    if i < j {
      CursorStays(cap, channel, states, events, i, j - 1);
      RunKeepsInv(cap, channel, states, events, j - 1);
      assert Step(cap, channel, states[j - 1], events[j - 1], states[j - 1 + 1]);
      OthersKeepCursor(cap, channel, states[j - 1], events[j - 1], states[j]);
    }
  }

  // The page that an answer brought, as it was when it came.
  function Latest(s: State): seq<Message>
    requires s.hook.cache.Cached?
  {
    Pages(s.hook.cache)[|Pages(s.hook.cache)| - 1].messages
  }

  // has_more, when the page is log[lo..hi] of what was known when it was taken.
  lemma HasMoreOfSlice(cap: nat, saves: seq<Message>, channel: ChannelId, atPage: nat, atMore: nat,
                       messages: seq<Message>, lo: nat, hi: nat)
    requires DistinctIds(saves) && atPage <= atMore <= |saves|
    requires lo <= hi <= |SentTo(saves[..atPage], channel)| <= |SentTo(saves, channel)|
    requires messages == SentTo(saves, channel)[lo..hi]
    ensures messages != [] && HasMore(SaveAll(Empty(cap), saves[..atMore]), channel, messages)
      <==> messages != [] && FirstRetained(SentTo(saves[..atMore], channel), Empty(cap).cap) < lo
  {
    hide SentTo; hide SaveAll; hide HasMore; hide DistinctIds;
    if messages != [] {
      assert saves[..atMore][..atPage] == saves[..atPage];
      PrefixOfLog(saves[..atMore], atPage, channel);
      PrefixOfLog(saves, atMore, channel);
      PrefixOfDistinct(saves, atMore);
      HasMoreLater(cap, saves[..atMore], channel, messages, lo);
    }
  }

  lemma PrefixOfDistinct(saves: seq<Message>, k: nat)
    requires DistinctIds(saves) && k <= |saves|
    ensures DistinctIds(saves[..k])
  {
  }

  ghost predicate PageCursor(cap: nat, channel: ChannelId, s: State, e: Event, s': State)
    requires IsPage(e)
  {
    && s'.hook.cache.Cached? && e.atMore <= |s.saves|
    && (OlderCursor(s'.hook.cache).Some?
        <==> Latest(s') != [] && FirstRetained(SentTo(s.saves[..e.atMore], channel), Empty(cap).cap) < s'.lo)
  }

  // Right after a page: there is a cursor exactly if the page is not empty and begins
  // after the first message that was still buffered when has_more was worked out.
  lemma FirstPageCursor(cap: nat, channel: ChannelId, s: State, atPage: nat, atMore: nat, limit: nat, s': State)
    requires Inv(s, channel) && Step(cap, channel, s, FirstPage(atPage, atMore, limit), s')
    ensures PageCursor(cap, channel, s, FirstPage(atPage, atMore, limit), s')
  {
    hide SentTo; hide PageMessages; hide SaveAll; hide Holds; hide Flatten; hide DistinctIds; hide HasMore;
    hide ServerPages; hide KeptBack; hide Strays; hide Positions; hide Cursor; hide FirstRetained; hide Empty;
    FirstAnswer(cap, s.saves, channel, atPage, atMore, limit);
    HasMoreOfSlice(cap, s.saves, channel, atPage, atMore, s'.hook.cache.first.messages, s'.lo, s'.hi);
  }

  lemma OlderPageSetsCursor(cap: nat, channel: ChannelId, s: State, atPage: nat, atMore: nat, limit: nat, s': State)
    requires Inv(s, channel) && Step(cap, channel, s, OlderPage(atPage, atMore, limit), s')
    ensures PageCursor(cap, channel, s, OlderPage(atPage, atMore, limit), s')
  {
    hide SentTo; hide PageMessages; hide SaveAll; hide Holds; hide Flatten; hide DistinctIds; hide HasMore;
    hide ServerPages; hide KeptBack; hide Strays; hide Positions; hide FirstRetained; hide Empty;
    var page := Answer(cap, s.saves, channel, OlderCursor(s.hook.cache), atPage, atMore, limit);
    assert Pages(s'.hook.cache) == Pages(s.hook.cache) + [page];
    OlderAnswer(cap, s.saves, channel, s.taken, s.lo, atPage, atMore, limit);
    PrefixOfLog(s.saves, atPage, channel);
    HasMoreOfSlice(cap, s.saves, channel, atPage, atMore, page.messages, s'.lo, s.lo);
  }

  // In every reachable state with the first page there: an older page can be loaded
  // exactly if the latest answer was not empty and did not reach back to the first
  // message that was still buffered when its has_more was worked out.
  lemma NoOlderPageIff(cap: nat, channel: ChannelId, states: seq<State>, events: seq<Event>, i: nat, j: nat)
    requires Run(cap, channel, states, events) && i < j < |states| && IsPage(events[i])
    requires forall k :: i < k < j && k < |events| ==> !IsPage(events[k])
    ensures states[i + 1].hook.cache.Cached? && events[i].atMore <= |states[i].saves|
    ensures CanLoadOlder(cap, channel, states[j])
      <==> && Latest(states[i + 1]) != []
           && FirstRetained(SentTo(states[i].saves[..events[i].atMore], channel), Empty(cap).cap) < states[j].lo
  {
    RunKeepsInv(cap, channel, states, events, i);
    RunKeepsInv(cap, channel, states, events, j);
    assert Step(cap, channel, states[i], events[i], states[i + 1]);
    hide Inv; hide Step; hide OlderCursor; hide SentTo; hide FirstRetained; hide Empty; hide CanLoadOlder; hide Latest;
    match events[i] {
      case FirstPage(atPage, atMore, limit) =>
        FirstPageCursor(cap, channel, states[i], atPage, atMore, limit, states[i + 1]);
      case OlderPage(atPage, atMore, limit) =>
        OlderPageSetsCursor(cap, channel, states[i], atPage, atMore, limit, states[i + 1]);
    }
    CursorStays(cap, channel, states, events, i + 1, j);
    CursorDecides(cap, channel, states[j]);
  }

  // ----- How far it gets -----

  // What the loaded pages hold, newest page first.
  function Texts(cache: Cache): seq<seq<Message>> {
    seq(|Pages(cache)|, i requires 0 <= i < |Pages(cache)| => Pages(cache)[i].messages)
  }

  // The pages still to come, if nothing more is saved.
  ghost function ToCome(buffers: Buffers, channel: ChannelId, cursor: Option<MessageId>, limit: nat): seq<seq<Message>>
    requires DistinctIds(buffers.Of(channel)) && limit >= 1
  {
    if cursor.None? then [] else Walk(buffers, channel, cursor, limit)
  }

  // From the first page on, taken now: no message is saved, the drain has not run yet,
  // and pages are asked for with the same limit. Anything else may happen.
  ghost predicate LoadsPages(states: seq<State>, events: seq<Event>, b: nat, n: nat, limit: nat)
    requires n <= |events| <= |states|
  {
    && b < n && events[b] == FirstPage(|states[b].saves|, |states[b].saves|, limit)
    && forall k :: b < k < n ==>
         !events[k].Saved? && !events[k].Drained? && (events[k].OlderPage? ==> events[k].limit == limit)
  }

  ghost predicate Loaded(cap: nat, channel: ChannelId, s: State, saves: seq<Message>, limit: nat)
    requires limit >= 1
  {
    var buffers := SaveAll(Empty(cap), saves);
    && s.saves == saves && s.taken == |saves| && s.hook.cache.Cached? && !s.hook.initialFetched
    && DistinctIds(buffers.Of(channel))
    && Texts(s.hook.cache) + ToCome(buffers, channel, OlderCursor(s.hook.cache), limit)
       == Walk(buffers, channel, None, limit)
  }

  lemma BufferDistinct(cap: nat, saves: seq<Message>, channel: ChannelId)
    requires DistinctIds(saves)
    ensures DistinctIds(SaveAll(Empty(cap), saves).Of(channel))
  {
    RingBufferKeepsTail(cap, saves, channel);
    SentToDistinct(saves, channel);
  }

  // One page of the walk, and the rest after it.
  lemma OnePageOn(buffers: Buffers, channel: ChannelId, cursor: Option<MessageId>, limit: nat, page: Page)
    requires DistinctIds(buffers.Of(channel)) && limit >= 1 && page == FetchPage(buffers, channel, cursor, limit)
    ensures Walk(buffers, channel, cursor, limit)
      == [page.messages] + ToCome(buffers, channel, NextPageParam(page), limit)
  {
    hide PageMessages; hide Buffers.Of; hide Buffers.ListBefore; hide DistinctIds;
  }

  lemma OneMoreText(cache: Cache, page: Page)
    requires cache.Cached?
    ensures var more := cache.(older := cache.older + [page]);
      Texts(more) == Texts(cache) + [page.messages] && OlderCursor(more) == NextPageParam(page)
  {
    assert Pages(cache.(older := cache.older + [page])) == Pages(cache) + [page];
  }

  lemma FirstLoads(cap: nat, channel: ChannelId, s: State, limit: nat, s': State)
    requires Inv(s, channel) && limit >= 1 && Step(cap, channel, s, FirstPage(|s.saves|, |s.saves|, limit), s')
    ensures Loaded(cap, channel, s', s.saves, limit)
  {
    hide SentTo; hide SaveAll; hide Holds; hide HasMore; hide PageMessages; hide KeptBack; hide Strays; hide Cursor;
    BufferDistinct(cap, s.saves, channel);
    assert s.saves[..|s.saves|] == s.saves;
    hide DistinctIds; hide Walk; hide ToCome; hide NextPageParam;
    OnePageOn(SaveAll(Empty(cap), s.saves), channel, None, limit, s'.hook.cache.first);
    assert Texts(s'.hook.cache) == [s'.hook.cache.first.messages];
  }

  lemma OlderLoads(cap: nat, channel: ChannelId, s: State, atPage: nat, atMore: nat, limit: nat, s': State)
    requires limit >= 1 && Loaded(cap, channel, s, s.saves, limit)
    requires Step(cap, channel, s, OlderPage(atPage, atMore, limit), s')
    ensures Loaded(cap, channel, s', s.saves, limit)
  {
    hide SentTo; hide SaveAll; hide HasMore; hide PageMessages; hide DistinctIds; hide Walk; hide NextPageParam;
    assert s.saves[..|s.saves|] == s.saves;
    var buffers, cursor := SaveAll(Empty(cap), s.saves), OlderCursor(s.hook.cache);
    var page := Answer(cap, s.saves, channel, cursor, atPage, atMore, limit);
    OnePageOn(buffers, channel, cursor, limit, page);
    OneMoreText(s.hook.cache, page);
    hide Texts; hide OlderCursor;
    JoinedLater(Texts(s.hook.cache), page.messages, ToCome(buffers, channel, NextPageParam(page), limit));
  }

  lemma JoinedLater<T>(a: seq<T>, x: T, b: seq<T>)
    ensures a + ([x] + b) == a + [x] + b
  {
  }

  lemma OtherLoads(cap: nat, channel: ChannelId, s: State, e: Event, limit: nat, s': State)
    requires limit >= 1 && Loaded(cap, channel, s, s.saves, limit) && Step(cap, channel, s, e, s')
    requires !e.Saved? && !e.Drained? && !IsPage(e)
    ensures Loaded(cap, channel, s', s.saves, limit)
  {
    hide SaveAll; hide DistinctIds; hide Walk; hide OlderCursor; hide Texts;
  }

  lemma EventHappened(cap: nat, channel: ChannelId, states: seq<State>, events: seq<Event>, k: nat)
    requires Run(cap, channel, states, events) && k < |events|
    ensures |events| < |states| && Step(cap, channel, states[k], events[k], states[k + 1])
    ensures Inv(states[k], channel)
  {
    RunKeepsInv(cap, channel, states, events, k);
    hide Step; hide Initial; hide Inv;
    assert Step(cap, channel, states[k], events[k], states[k + 1]);
  }

  lemma LoadedNext(cap: nat, channel: ChannelId, s: State, saves: seq<Message>, e: Event, limit: nat, s': State)
    requires limit >= 1 && Loaded(cap, channel, s, saves, limit) && Step(cap, channel, s, e, s')
    requires !e.Saved? && !e.Drained? && (e.OlderPage? ==> e.limit == limit)
    ensures Loaded(cap, channel, s', saves, limit)
  {
    StillUnchanged(cap, channel, s, saves, limit);
    NotFirst(cap, channel, s, e, s');
    hide Loaded; hide Step;
    if e.OlderPage? {
      OlderLoads(cap, channel, s, e.atPage, e.atMore, limit, s');
    } else {
      OtherLoads(cap, channel, s, e, limit, s');
    }
  }

  lemma {:induction false} LoadedSoFar(cap: nat, channel: ChannelId, states: seq<State>, events: seq<Event>, b: nat,
                                       n: nat, limit: nat)
    requires Run(cap, channel, states, events) && n <= |events| < |states| && limit >= 1
    requires LoadsPages(states, events, b, n, limit)
    ensures Loaded(cap, channel, states[n], states[b].saves, limit)
    decreases n
  {
    hide Run; hide Loaded; hide Step; hide Inv;
    EventHappened(cap, channel, states, events, n - 1);
    if b + 1 == n {
      FirstLoads(cap, channel, states[b], limit, states[n]);
    } else {
      LoadedSoFar(cap, channel, states, events, b, n - 1, limit);
      LoadedNext(cap, channel, states[n - 1], states[b].saves, events[n - 1], limit, states[n]);
    }
  }

  lemma StillUnchanged(cap: nat, channel: ChannelId, s: State, saves: seq<Message>, limit: nat)
    requires limit >= 1 && Loaded(cap, channel, s, saves, limit)
    ensures s.saves == saves && s.hook.cache.Cached?
  {
  }

  lemma NotFirst(cap: nat, channel: ChannelId, s: State, e: Event, s': State)
    requires s.hook.cache.Cached? && Step(cap, channel, s, e, s')
    ensures !e.FirstPage?
  {
  }

  // How many pages a buffer fills; an empty one still takes an answer to find out.
  function PagesOf(n: nat, limit: nat): nat
    requires limit >= 1
  {
    if n == 0 then 1 else PagesNeeded(n, Min(limit, SERVER_MAX_LIMIT))
  }

  // Following older pages as long as there are any: it ends after as many pages as the
  // buffer fills, no earlier, and by then the pages, oldest first, are the buffer.
  lemma AllPagesAreTheBuffer(cap: nat, channel: ChannelId, states: seq<State>, events: seq<Event>, b: nat, n: nat,
                             limit: nat)
    requires Run(cap, channel, states, events) && n <= |events| && limit >= 1
    requires LoadsPages(states, events, b, n, limit)
    ensures var buffer, texts := SaveAll(Empty(cap), states[b].saves).Of(channel), Texts(states[n].hook.cache);
      && |texts| <= PagesOf(|buffer|, limit)
      && (CanLoadOlder(cap, channel, states[n]) <==> |texts| < PagesOf(|buffer|, limit))
      && (!CanLoadOlder(cap, channel, states[n]) ==> OldestFirst(texts) == buffer)
  {
    LoadedSoFar(cap, channel, states, events, b, n, limit);
    RunKeepsInv(cap, channel, states, events, n);
    CursorDecides(cap, channel, states[n]);
    hide Run; hide Inv; hide CanLoadOlder; hide SaveAll; hide OlderCursor;
    PagesAndTheRest(SaveAll(Empty(cap), states[b].saves), channel, Texts(states[n].hook.cache),
                    OlderCursor(states[n].hook.cache), limit);
    hide LoadsPages; hide PagesOf; hide Texts; hide ToCome; hide Walk; hide OldestFirst;
  }

  lemma PagesAndTheRest(buffers: Buffers, channel: ChannelId, texts: seq<seq<Message>>, cursor: Option<MessageId>,
                        limit: nat)
    requires DistinctIds(buffers.Of(channel)) && limit >= 1
    requires texts + ToCome(buffers, channel, cursor, limit) == Walk(buffers, channel, None, limit)
    ensures var pages := PagesOf(|buffers.Of(channel)|, limit);
      && |texts| <= pages && (cursor.Some? <==> |texts| < pages)
      && (cursor.None? ==> OldestFirst(texts) == buffers.Of(channel))
  {
    WalkReturnsBuffer(buffers, channel, limit);
    if cursor.Some? {
      OnePageOn(buffers, channel, cursor, limit, FetchPage(buffers, channel, cursor, limit));
    } else {
      assert texts + [] == texts;
    }
    hide Walk; hide OldestFirst; hide DistinctIds; hide PagesNeeded; hide FetchPage;
  }
}

/**
 Cursor-paged history: one page, the walk over all pages of a buffer that does
 not change, and pages fetched while messages keep being saved and evicted.
 */
module ListMessages {
  import opened Core
  import opened ChannelRepository
  import opened MessageRepository

  const SERVER_MAX_LIMIT: nat := 200

  datatype Page = Page(messages: seq<Message>, hasMore: bool)

  function PageMessages(buffers: Buffers, channel: ChannelId, before: Option<MessageId>, limit: nat): seq<Message> {
    var capped := Min(limit, SERVER_MAX_LIMIT);
    if before.Some? then buffers.ListBefore(channel, before.value, capped)
    else buffers.Recent(channel, capped)
  }

  // Evaluated in a lock section of its own, possibly on a later state of the buffers.
  predicate HasMore(buffers: Buffers, channel: ChannelId, messages: seq<Message>) {
    messages != [] && buffers.ListBefore(channel, messages[0].id, 1) != []
  }

  function FetchPage(buffers: Buffers, channel: ChannelId, before: Option<MessageId>, limit: nat): Page {
    var messages := PageMessages(buffers, channel, before, limit);
    Page(messages, HasMore(buffers, channel, messages))
  }

  function Execute(repo: Repo, buffers: Buffers, client: ClientId, channel: ChannelId,
                   before: Option<MessageId>, limit: nat): Result<Page>
  {
    match repo.Find(channel)
    case Err(e) => Err(e)
    case Ok(record) =>
      if client !in record.members then Err(NotAMember)
      else Ok(FetchPage(buffers, channel, before, limit))
  }

  // A page is handed out to members only, and depends on nothing but the buffer
  // of the channel asked for.
  lemma OnlyMembersRead(s: Repo, b: Buffers, c: Buffers, client: ClientId, channel: ChannelId,
                        before: Option<MessageId>, limit: nat)
    ensures Execute(s, b, client, channel, before, limit).Ok?
      <==> channel in s.byId && client in s.byId[channel].members
    ensures channel !in s.byId ==> Execute(s, b, client, channel, before, limit) == Err(ChannelNotFound)
    ensures channel in s.byId && client !in s.byId[channel].members ==>
      Execute(s, b, client, channel, before, limit) == Err(NotAMember)
    ensures b.Of(channel) == c.Of(channel) ==>
      Execute(s, b, client, channel, before, limit) == Execute(s, c, client, channel, before, limit)
  {
  }

  class ListMessagesUseCase {
    const channels: InMemoryChannelRepository
    const messages: InMemoryMessageRepository

    constructor (channels: InMemoryChannelRepository, messages: InMemoryMessageRepository)
      ensures this.channels == channels && this.messages == messages
    {
      this.channels, this.messages := channels, messages;
    }

    method Run(client: ClientId, channel: ChannelId, before: Option<MessageId>, limit: nat)
      returns (r: Result<Page>)
      ensures r == Execute(channels.State(), messages.State(), client, channel, before, limit)
    {
      var found := channels.FindById(channel);
      if found.Err? {
        return Err(found.error);
      }
      if client !in found.value.members {
        return Err(NotAMember);
      }
      var capped := Min(limit, SERVER_MAX_LIMIT);
      var page: seq<Message>;
      if before.Some? {
        page := messages.ListBefore(channel, before.value, capped);
      } else {
        page := messages.Recent(channel, capped);
      }
      var hasMore := false;
      if page != [] {
        var older := messages.ListBefore(channel, page[0].id, 1);
        hasMore := older != [];
      }
      r := Ok(Page(page, hasMore));
    }
  }

  // ----- A buffer that does not change -----

  // A page is a slice of the buffer, and has_more says whether anything precedes it.
  lemma PageIsSlice(buffers: Buffers, channel: ChannelId, before: Option<MessageId>, limit: nat)
    returns (lo: nat, hi: nat)
    requires DistinctIds(buffers.Of(channel))
    ensures var buffer := buffers.Of(channel);
      && lo <= hi <= |buffer|
      && FetchPage(buffers, channel, before, limit) == Page(buffer[lo..hi], lo < hi && lo > 0)
      && (before.None? ==> hi == |buffer|)
      && (before.Some? && IndexOf(buffer, before.value) < |buffer| ==> hi == IndexOf(buffer, before.value))
      && (before.Some? && IndexOf(buffer, before.value) == |buffer| ==> lo == hi)
      && hi - lo <= Min(limit, SERVER_MAX_LIMIT)
      && (hi - lo == Min(limit, SERVER_MAX_LIMIT) || lo == 0
          || (before.Some? && IndexOf(buffer, before.value) == |buffer|))
  {
    var buffer := buffers.Of(channel);
    var capped := Min(limit, SERVER_MAX_LIMIT);
    hi := if before.Some? then IndexOf(buffer, before.value) else |buffer|;
    lo := if before.Some? && hi == |buffer| then hi else hi - Min(capped, hi);
    var messages := PageMessages(buffers, channel, before, limit);
    assert messages == buffer[lo..hi];
    if lo < hi {
      IndexOfInTail(buffer, lo, 0);
      assert buffer[0..] == buffer;
    }
  }

  // has_more holds exactly when the page is not empty and the buffer holds
  // something older than the page's first message.
  lemma HasMoreIff(buffers: Buffers, channel: ChannelId, before: Option<MessageId>, limit: nat)
    requires DistinctIds(buffers.Of(channel))
    ensures var page := FetchPage(buffers, channel, before, limit);
      page.hasMore <==> page.messages != [] && page.messages[0] != buffers.Of(channel)[0]
  {
    var lo, hi := PageIsSlice(buffers, channel, before, limit);
  }

  // Where the next page ends: the whole buffer without a cursor, the cursor's
  // position with one.
  ghost function CursorPosition(buffers: Buffers, channel: ChannelId, before: Option<MessageId>): nat {
    if before.Some? then IndexOf(buffers.Of(channel), before.value) else |buffers.Of(channel)|
  }

  // All pages from a cursor on, newest first, until has_more is false.
  ghost function Walk(buffers: Buffers, channel: ChannelId, before: Option<MessageId>, limit: nat): seq<seq<Message>>
    requires DistinctIds(buffers.Of(channel)) && limit >= 1
    decreases CursorPosition(buffers, channel, before)
  {
    var page := FetchPage(buffers, channel, before, limit);
    if !page.hasMore then [page.messages]
    else
      assert CursorPosition(buffers, channel, Some(page.messages[0].id)) < CursorPosition(buffers, channel, before) by {
        var lo, hi := PageIsSlice(buffers, channel, before, limit);
        IndexOfInTail(buffers.Of(channel), lo, 0);
        assert buffers.Of(channel)[0..] == buffers.Of(channel);
      }
      [page.messages] + Walk(buffers, channel, Some(page.messages[0].id), limit)
  }

  // Pages are collected newest first and shown oldest first.
  function OldestFirst<T>(pages: seq<seq<T>>): seq<T> {
    if pages == [] then [] else OldestFirst(pages[1..]) + pages[0]
  }

  // n messages in pages of m.
  function PagesNeeded(n: nat, m: nat): nat
    requires m > 0
  {
    if n == 0 then 0 else if n <= m then 1 else 1 + PagesNeeded(n - m, m)
  }

  // ... which is n / m rounded up.
  lemma {:induction false} PagesNeededIsCeiling(n: nat, m: nat)
    requires m > 0 && n > 0
    ensures (PagesNeeded(n, m) - 1) * m < n <= PagesNeeded(n, m) * m
  {
    if n > m {
      PagesNeededIsCeiling(n - m, m);
      assert PagesNeeded(n, m) * m == PagesNeeded(n - m, m) * m + m;
      assert (PagesNeeded(n, m) - 1) * m == (PagesNeeded(n - m, m) - 1) * m + m;
    }
  }

  // From any buffered position: the walk returns everything before it, once and
  // in order, in as few pages as the page size allows.
  lemma {:induction false} WalkFrom(buffers: Buffers, channel: ChannelId, before: Option<MessageId>, limit: nat)
    requires DistinctIds(buffers.Of(channel)) && limit >= 1
    requires before.Some? ==> CursorPosition(buffers, channel, before) < |buffers.Of(channel)|
    ensures var hi := CursorPosition(buffers, channel, before);
      && OldestFirst(Walk(buffers, channel, before, limit)) == buffers.Of(channel)[..hi]
      && (hi > 0 ==> |Walk(buffers, channel, before, limit)| == PagesNeeded(hi, Min(limit, SERVER_MAX_LIMIT)))
      && (hi == 0 ==> |Walk(buffers, channel, before, limit)| == 1)
    decreases CursorPosition(buffers, channel, before)
  {
    hide FetchPage;
    hide Buffers.Of;
    var buffer := buffers.Of(channel);
    var page := FetchPage(buffers, channel, before, limit);
    var lo, hi := PageIsSlice(buffers, channel, before, limit);
    if page.hasMore {
      var next := Some(page.messages[0].id);
      IndexOfInTail(buffer, lo, 0);
      assert buffer[0..] == buffer;
      WalkFrom(buffers, channel, next, limit);
      OneMorePage(page.messages, Walk(buffers, channel, next, limit));
      SlicesMeet(buffer, 0, lo, hi);
    } else {
      OneMorePage(page.messages, []);
      assert lo == 0 || lo == hi;
      assert buffer[..hi] == buffer[0..hi];
    }
  }

  lemma OneMorePage<T>(page: seq<T>, older: seq<seq<T>>)
    ensures OldestFirst([page] + older) == OldestFirst(older) + page
    ensures [page] + [] == [page]
  {
    assert ([page] + older)[1..] == older;
  }

  // Following pages from the newest one returns the whole buffer.
  lemma WalkReturnsBuffer(buffers: Buffers, channel: ChannelId, limit: nat)
    requires DistinctIds(buffers.Of(channel)) && limit >= 1
    ensures OldestFirst(Walk(buffers, channel, None, limit)) == buffers.Of(channel)
    ensures |Walk(buffers, channel, None, limit)|
      == if buffers.Of(channel) == [] then 1
         else PagesNeeded(|buffers.Of(channel)|, Min(limit, SERVER_MAX_LIMIT))
  {
    WalkFrom(buffers, channel, None, limit);
    assert buffers.Of(channel)[..|buffers.Of(channel)|] == buffers.Of(channel);
  }

  // ----- Pages fetched while messages are saved and evicted -----

  // One reader of one channel among any number of senders to any channels.
  datatype Paging = Paging(saves: seq<Message>, pages: seq<seq<Message>>)

  datatype PagingEvent = Saved(message: Message) | Fetched(limit: nat)

  // The reader follows the first id of its latest page and stops at an empty one.
  predicate CanFetch(state: Paging) {
    state.pages == [] || state.pages[|state.pages| - 1] != []
  }

  function NextCursor(state: Paging): Option<MessageId>
    requires CanFetch(state)
  {
    if state.pages == [] then None else Some(state.pages[|state.pages| - 1][0].id)
  }

  ghost predicate PagingStep(cap: nat, channel: ChannelId, state: Paging, event: PagingEvent, next: Paging) {
    match event
    case Saved(message) =>
      && (forall m :: m in state.saves ==> m.id != message.id)
      && next == state.(saves := state.saves + [message])
    case Fetched(limit) =>
      && CanFetch(state)
      && var buffers := SaveAll(Empty(cap), state.saves);
      next == state.(pages := state.pages + [PageMessages(buffers, channel, NextCursor(state), limit)])
  }

  ghost predicate PagingRun(cap: nat, channel: ChannelId, states: seq<Paging>, events: seq<PagingEvent>) {
    && |states| == |events| + 1
    && states[0] == Paging([], [])
    && forall i :: 0 <= i < |events| ==> PagingStep(cap, channel, states[i], events[i], states[i + 1])
  }

  // Pages listed in the order in which they were fetched, newest messages first.
  function JoinPages(pages: seq<seq<Message>>): seq<Message> {
    if pages == [] then [] else pages[|pages| - 1] + JoinPages(pages[..|pages| - 1])
  }

  // log[lo..hi] is what the reader has seen; while the latest page is not empty
  // its first message is log[lo].
  ghost predicate SegmentRead(state: Paging, channel: ChannelId, lo: nat, hi: nat) {
    var log := SentTo(state.saves, channel);
    && DistinctIds(state.saves) && DistinctIds(log)
    && lo <= hi <= |log|
    && JoinPages(state.pages) == log[lo..hi]
    && (state.pages != [] && CanFetch(state) ==>
          lo < hi && state.pages[|state.pages| - 1][0] == log[lo])
  }

  lemma {:induction false} SentToDistinct(saves: seq<Message>, channel: ChannelId)
    requires DistinctIds(saves)
    ensures DistinctIds(SentTo(saves, channel))
    ensures forall m :: m in SentTo(saves, channel) ==> m in saves && m.channel == channel
  {
    if saves != [] {
      SentToDistinct(saves[..|saves| - 1], channel);
    }
  }

  // In every interleaving of saves and fetches the pages joined oldest first are
  // one contiguous segment of the channel's whole send log.
  lemma {:induction false} PagesAreOneSegment(cap: nat, channel: ChannelId,
                                              states: seq<Paging>, events: seq<PagingEvent>, n: nat)
    returns (lo: nat, hi: nat)
    requires PagingRun(cap, channel, states, events) && n < |states|
    ensures SegmentRead(states[n], channel, lo, hi)
    decreases n
  {
    if n == 0 {
      lo, hi := 0, 0;
    } else {
      lo, hi := PagesAreOneSegment(cap, channel, states, events, n - 1);
      assert PagingStep(cap, channel, states[n - 1], events[n - 1], states[n]);
      match events[n - 1] {
        case Saved(message) =>
          SaveKeepsSegment(states[n - 1], channel, message, lo, hi);
        case Fetched(limit) =>
          lo, hi := FetchExtendsSegment(cap, states[n - 1], channel, limit, lo, hi);
      }
    }
  }

  lemma SaveKeepsSegment(state: Paging, channel: ChannelId, message: Message, lo: nat, hi: nat)
    requires SegmentRead(state, channel, lo, hi)
    requires forall m :: m in state.saves ==> m.id != message.id
    ensures SegmentRead(state.(saves := state.saves + [message]), channel, lo, hi)
  {
    var saves := state.saves + [message];
    assert saves[..|saves| - 1] == state.saves;
    assert DistinctIds(saves);
    SentToDistinct(saves, channel);
  }

  lemma FetchExtendsSegment(cap: nat, state: Paging, channel: ChannelId, limit: nat, lo: nat, hi: nat)
    returns (lo': nat, hi': nat)
    requires SegmentRead(state, channel, lo, hi) && CanFetch(state)
    ensures var buffers := SaveAll(Empty(cap), state.saves);
      var page := PageMessages(buffers, channel, NextCursor(state), limit);
      SegmentRead(state.(pages := state.pages + [page]), channel, lo', hi')
      && (state.pages != [] ==> hi' == hi && lo' <= lo)
  {
    hide SaveAll;
    hide SentTo;
    hide Buffers.Of;
    var log := SentTo(state.saves, channel);
    var buffers := SaveAll(Empty(cap), state.saves);
    RingBufferKeepsTail(cap, state.saves, channel);
    var page := PageMessages(buffers, channel, NextCursor(state), limit);
    JoinOnePageMore(state.pages, page);
    if state.pages == [] {
      RecentSlicesLog(buffers, channel, log, Min(limit, SERVER_MAX_LIMIT));
      lo', hi' := |log| - |page|, |log|;
      assert page + JoinPages([]) == log[lo'..hi'];
    } else {
      ListBeforeSlicesLog(buffers, channel, log, lo, Min(limit, SERVER_MAX_LIMIT));
      lo', hi' := lo - |page|, hi;
      SlicesMeet(log, lo', lo, hi);
      assert page == log[lo'..lo];
    }
  }

  lemma SlicesMeet<T>(q: seq<T>, a: nat, b: nat, c: nat)
    requires a <= b <= c <= |q|
    ensures q[a..b] + q[b..c] == q[a..c]
  {
  }

  lemma JoinOnePageMore(pages: seq<seq<Message>>, page: seq<Message>)
    ensures JoinPages(pages + [page]) == page + JoinPages(pages)
  {
    assert (pages + [page])[..|pages|] == pages;
  }

  // The has_more answer of a page that starts at log[lo], computed on any later
  // state: true exactly when a message before it is still buffered along with it.
  lemma HasMoreLater(cap: nat, saves: seq<Message>, channel: ChannelId, messages: seq<Message>, lo: nat)
    requires DistinctIds(saves)
    requires messages != [] && lo < |SentTo(saves, channel)| && SentTo(saves, channel)[lo] == messages[0]
    ensures HasMore(SaveAll(Empty(cap), saves), channel, messages)
      <==> FirstRetained(SentTo(saves, channel), Empty(cap).cap) < lo
  {
    var log := SentTo(saves, channel);
    SentToDistinct(saves, channel);
    RingBufferKeepsTail(cap, saves, channel);
    ListBeforeSlicesLog(SaveAll(Empty(cap), saves), channel, log, lo, 1);
  }
}

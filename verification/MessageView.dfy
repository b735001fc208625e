/**
 The web client's view of one channel: cached history pages, newest page first,
 live messages appended to the first page, and the list that is shown. A live
 message that arrives before the first page is kept back until that page is there.
 */
module MessageView {
  import opened Core
  import opened ListMessages

  // The cache entry of the history query; once it exists it has a first page.
  datatype Cache = Missing | Cached(first: Page, older: seq<Page>)

  datatype Hook = Hook(cache: Cache, pendingLive: seq<Message>, initialFetched: bool)

  predicate HasId(q: seq<Message>, id: MessageId) {
    exists i :: 0 <= i < |q| && q[i].id == id
  }

  function Pages(cache: Cache): seq<Page> {
    if cache.Missing? then [] else [cache.first] + cache.older
  }

  function Flatten(pages: seq<Page>): seq<Message> {
    if pages == [] then [] else Flatten(pages[..|pages| - 1]) + pages[|pages| - 1].messages
  }

  predicate OnSomePage(pages: seq<Page>, id: MessageId) {
    exists i :: 0 <= i < |pages| && HasId(pages[i].messages, id)
  }

  function InjectLive(cache: Cache, message: Message): Cache {
    if cache.Missing? then Cached(Page([message], false), [])
    else if OnSomePage(Pages(cache), message.id) then cache
    else cache.(first := cache.first.(messages := cache.first.messages + [message]))
  }

  function InjectAll(cache: Cache, messages: seq<Message>): Cache {
    if messages == [] then cache
    else InjectLive(InjectAll(cache, messages[..|messages| - 1]), messages[|messages| - 1])
  }

  // The cursor of the next older page, if there is one.
  function NextPageParam(last: Page): Option<MessageId> {
    if last.hasMore && last.messages != [] then Some(last.messages[0].id) else None
  }

  function OlderCursor(cache: Cache): Option<MessageId> {
    if cache.Missing? then None
    else NextPageParam(if cache.older == [] then cache.first else cache.older[|cache.older| - 1])
  }

  // ----- The hook's events -----

  const FRESH := Hook(Missing, [], false)

  function OnLive(h: Hook, message: Message): Hook {
    if h.initialFetched then h.(cache := InjectLive(h.cache, message))
    else h.(pendingLive := h.pendingLive + [message])
  }

  function OnFirstPage(h: Hook, page: Page): Hook {
    h.(cache := Cached(page, []))
  }

  function OnOlderPage(h: Hook, page: Page): Hook {
    if h.cache.Missing? then h else h.(cache := h.cache.(older := h.cache.older + [page]))
  }

  function Drain(h: Hook): Hook {
    if h.cache.Missing? || h.initialFetched then h
    else Hook(InjectAll(h.cache, h.pendingLive), [], true)
  }

  // ----- What is shown -----

  // Each message once, where it first occurs.
  function Dedup(q: seq<Message>): seq<Message> {
    if q == [] then []
    else
      var before, last := Dedup(q[..|q| - 1]), q[|q| - 1];
      if HasId(before, last.id) then before else before + [last]
  }

  // After everything that is not newer.
  function Place(q: seq<Message>, m: Message): seq<Message> {
    if q == [] || q[|q| - 1].sentAt <= m.sentAt then q + [m]
    else Place(q[..|q| - 1], m) + [q[|q| - 1]]
  }

  // A stable sort by time.
  function StableSort(q: seq<Message>): seq<Message> {
    if q == [] then [] else Place(StableSort(q[..|q| - 1]), q[|q| - 1])
  }

  function Shown(cache: Cache): seq<Message> {
    StableSort(Dedup(Flatten(Pages(cache))))
  }

  lemma NothingYet()
    ensures Flatten([]) == [] && Dedup([]) == []
  {
  }

  lemma DedupNext(before: seq<Message>, page: seq<Message>, j: nat)
    requires j < |page|
    ensures var was := Dedup(before + page[..j]);
      Dedup(before + page[..j + 1]) == if HasId(was, page[j].id) then was else was + [page[j]]
  {
    assert (before + page[..j + 1])[..|before| + j] == before + page[..j];
  }

  lemma FlattenNext(pages: seq<Page>, i: nat)
    requires i < |pages|
    ensures Flatten(pages[..i + 1]) == Flatten(pages[..i]) + pages[i].messages
  {
    assert pages[..i + 1][..i] == pages[..i];
  }

  class ChannelMessages {
    var cache: Cache
    var pendingLive: seq<Message>
    var initialFetched: bool

    ghost function State(): Hook
      reads this
    {
      Hook(cache, pendingLive, initialFetched)
    }

    constructor ()
      ensures State() == FRESH
    {
      cache, pendingLive, initialFetched := Missing, [], false;
    }

    // Entering a channel forgets what was kept back for the previous one.
    method Reset()
      modifies this`pendingLive, this`initialFetched
      ensures State() == Hook(old(cache), [], false)
    {
      pendingLive, initialFetched := [], false;
    }

    method Inject(message: Message)
      modifies this`cache
      ensures cache == InjectLive(old(cache), message)
    {
      match cache
      case Missing => cache := Cached(Page([message], false), []);
      case Cached(first, older) =>
        var pages := [first] + older;
        if OnSomePage(pages, message.id) {
          return;
        }
        cache := Cached(first.(messages := first.messages + [message]), older);
    }

    method Live(message: Message)
      modifies this
      ensures State() == OnLive(old(State()), message)
    {
      if initialFetched {
        Inject(message);
      } else {
        pendingLive := pendingLive + [message];
      }
    }

    // Runs once the first page is there.
    method DrainPending()
      modifies this
      ensures State() == Drain(old(State()))
    {
      if cache.Missing? || initialFetched {
        return;
      }
      initialFetched := true;
      var drained := pendingLive;
      pendingLive := [];
      var i := 0;
      while i < |drained|
        invariant 0 <= i <= |drained|
        invariant State() == Hook(InjectAll(old(cache), drained[..i]), [], true)
      {
        Inject(drained[i]);
        i := i + 1;
        assert drained[..i][..i - 1] == drained[..i - 1];
      }
      assert drained[..|drained|] == drained;
    }

    method Messages() returns (messages: seq<Message>)
      ensures messages == Shown(cache)
    {
      if cache.Missing? {
        return [];
      }
      hide Dedup; hide Flatten; hide HasId;
      var pages := [cache.first] + cache.older;
      var byId: seq<Message> := [];   // a map that keeps the order of insertion
      NothingYet();
      var i := 0;
      while i < |pages|
        invariant 0 <= i <= |pages|
        invariant byId == Dedup(Flatten(pages[..i]))
      {
        var page, j := pages[i].messages, 0;
        ghost var before := Flatten(pages[..i]);
        assert before + page[..0] == before;
        while j < |page|
          invariant 0 <= j <= |page|
          invariant byId == Dedup(before + page[..j])
        {
          DedupNext(before, page, j);
          if !HasId(byId, page[j].id) {
            byId := byId + [page[j]];
          }
          j := j + 1;
        }
        assert page[..|page|] == page;
        FlattenNext(pages, i);
        i := i + 1;
      }
      assert pages[..|pages|] == pages;
      messages := StableSort(byId);
    }
  }

  // ----- The sort -----

  predicate Sorted(q: seq<Message>) {
    forall i, j :: 0 <= i < j < |q| ==> q[i].sentAt <= q[j].sentAt
  }

  // The messages sent at one moment, in the order of q.
  function At(q: seq<Message>, time: int): seq<Message> {
    if q == [] then []
    else At(q[..|q| - 1], time) + if q[|q| - 1].sentAt == time then [q[|q| - 1]] else []
  }

  lemma {:induction false} PlaceKeeps(q: seq<Message>, m: Message)
    ensures multiset(Place(q, m)) == multiset(q) + multiset{m}
  {
    if q != [] && q[|q| - 1].sentAt > m.sentAt {
      assert q == q[..|q| - 1] + [q[|q| - 1]];
      PlaceKeeps(q[..|q| - 1], m);
    }
  }

  lemma {:induction false} PlaceSorts(q: seq<Message>, m: Message)
    requires Sorted(q)
    ensures Sorted(Place(q, m))
  {
    if q != [] && q[|q| - 1].sentAt > m.sentAt {
      var init, last := q[..|q| - 1], q[|q| - 1];
      PlaceSorts(init, m);
      PlaceKeeps(init, m);
      hide Place;
      forall x | x in Place(init, m) ensures x.sentAt <= last.sentAt {
        assert x in multiset(Place(init, m));
        assert x == m || x in init;
      }
    }
  }

  lemma {:induction false} PlaceIsStable(q: seq<Message>, m: Message, time: int)
    ensures At(Place(q, m), time) == At(q, time) + if m.sentAt == time then [m] else []
  {
    if q == [] || q[|q| - 1].sentAt <= m.sentAt {
      assert (q + [m])[..|q|] == q;
    } else {
      var init, last := q[..|q| - 1], q[|q| - 1];
      PlaceIsStable(init, m, time);
      assert (Place(init, m) + [last])[..|Place(init, m)|] == Place(init, m);
    }
  }

  // The sort orders by time, loses nothing, and keeps the order of equal times.
  lemma {:induction false} StableSortSorts(q: seq<Message>, time: int)
    ensures Sorted(StableSort(q)) && multiset(StableSort(q)) == multiset(q)
    ensures At(StableSort(q), time) == At(q, time)
  {
    if q != [] {
      var init, last := q[..|q| - 1], q[|q| - 1];
      assert q == init + [last];
      StableSortSorts(init, time);
      PlaceKeeps(StableSort(init), last);
      PlaceSorts(StableSort(init), last);
      PlaceIsStable(StableSort(init), last, time);
    }
  }

  lemma {:induction false} AtFinds(q: seq<Message>, time: int)
    ensures forall m :: m in At(q, time) <==> m in q && m.sentAt == time
  {
    if q != [] {
      AtFinds(q[..|q| - 1], time);
      assert q == q[..|q| - 1] + [q[|q| - 1]];
    }
  }

  lemma AtButLast(q: seq<Message>, time: int)
    requires q != []
    ensures var init, last := q[..|q| - 1], q[|q| - 1];
      At(q, time) == if last.sentAt == time then At(init, time) + [last] else At(init, time)
  {
  }

  lemma LastTimes(p: seq<Message>, q: seq<Message>)
    requires Sorted(p) && p != [] && q != [] && At(p, q[|q| - 1].sentAt) == At(q, q[|q| - 1].sentAt)
    ensures q[|q| - 1].sentAt <= p[|p| - 1].sentAt
  {
    var last := q[|q| - 1];
    AtFinds(p, last.sentAt);
    AtFinds(q, last.sentAt);
    assert last in p;
  }

  // At each moment the same messages in the same order.
  ghost predicate SameGroups(p: seq<Message>, q: seq<Message>) {
    forall time :: At(p, time) == At(q, time)
  }

  lemma SameGroupsSameMessages(p: seq<Message>, q: seq<Message>)
    requires SameGroups(p, q)
    ensures forall m :: m in p <==> m in q
  {
    forall m: Message ensures m in p <==> m in q {
      AtFinds(p, m.sentAt);
      AtFinds(q, m.sentAt);
      assert At(p, m.sentAt) == At(q, m.sentAt);
    }
  }

  lemma SameLastMessage(p: seq<Message>, q: seq<Message>)
    requires Sorted(p) && Sorted(q) && SameGroups(p, q) && p != [] && q != []
    ensures p[|p| - 1] == q[|q| - 1]
  {
    var last := p[|p| - 1];
    assert At(p, last.sentAt) == At(q, last.sentAt) && At(p, q[|q| - 1].sentAt) == At(q, q[|q| - 1].sentAt);
    hide At; hide SameGroups;
    LastTimes(p, q);
    LastTimes(q, p);
    AtButLast(p, last.sentAt);
    AtButLast(q, last.sentAt);
    assert At(p, last.sentAt)[|At(p, last.sentAt)| - 1] == last;
  }

  lemma SameGroupsBeforeLast(p: seq<Message>, q: seq<Message>)
    requires SameGroups(p, q) && p != [] && q != [] && p[|p| - 1] == q[|q| - 1]
    ensures SameGroups(p[..|p| - 1], q[..|q| - 1])
  {
    hide At;
    var p', q', last := p[..|p| - 1], q[..|q| - 1], p[|p| - 1];
    forall time ensures At(p', time) == At(q', time) {
      AtButLast(p, time);
      AtButLast(q, time);
      assert At(p, time) == At(q, time);
      if last.sentAt == time {
        assert (At(p', time) + [last])[..|At(p', time)|] == (At(q', time) + [last])[..|At(q', time)|];
      }
    }
  }

  // A list sorted by time is determined by the order within each moment.
  lemma {:induction false} SortedByGroups(p: seq<Message>, q: seq<Message>)
    requires Sorted(p) && Sorted(q) && SameGroups(p, q)
    ensures p == q
    decreases |p|
  {
    assert (p == [] || p[0] in p) && (q == [] || q[0] in q);
    SameGroupsSameMessages(p, q);
    if p != [] && q != [] {
      var p', q', last := p[..|p| - 1], q[..|q| - 1], p[|p| - 1];
      hide SameGroups;
      SameLastMessage(p, q);
      SameGroupsBeforeLast(p, q);
      SortedByGroups(p', q');
      assert p == p' + [last] && q == q' + [last];
    }
  }

  // Exactly which list the sort makes of q: the one that is sorted and has the
  // messages of each moment in the order of q.
  lemma StableSortIff(q: seq<Message>, p: seq<Message>)
    ensures StableSort(q) == p <==> Sorted(p) && SameGroups(p, q)
  {
    StableSortSorts(q, 0);
    assert SameGroups(StableSort(q), q) by {
      forall time ensures At(StableSort(q), time) == At(q, time) {
        StableSortSorts(q, time);
      }
    }
    if Sorted(p) && SameGroups(p, q) {
      SameGroupsThrough(StableSort(q), q, p);
      hide Sorted; hide SameGroups;
      SortedByGroups(StableSort(q), p);
    }
  }

  lemma SameGroupsThrough(a: seq<Message>, b: seq<Message>, c: seq<Message>)
    requires SameGroups(a, b) && SameGroups(c, b)
    ensures SameGroups(a, c)
  {
    hide At;
  }

  // ----- The order of two messages -----

  ghost predicate Before(q: seq<Message>, x: Message, y: Message) {
    exists i, j :: 0 <= i < j < |q| && q[i] == x && q[j] == y
  }

  lemma BeforeLast(q: seq<Message>, x: Message, y: Message)
    requires q != []
    ensures var init, last := q[..|q| - 1], q[|q| - 1];
      Before(q, x, y) <==> Before(init, x, y) || (x in init && y == last)
  {
    var init := q[..|q| - 1];
    if i, j :| 0 <= i < j < |q| && q[i] == x && q[j] == y {
      assert init[i] == x && (j < |init| ==> init[j] == y);
    }
    if i, j :| 0 <= i < j < |init| && init[i] == x && init[j] == y {
      assert q[i] == x && q[j] == y;
    }
    if i :| 0 <= i < |init| && init[i] == x && y == q[|q| - 1] {
      assert q[i] == x && q[|init|] == y;
    }
  }

  // Among the messages of one moment the order is that of the whole list.
  lemma {:induction false} AtKeepsOrder(q: seq<Message>, time: int, x: Message, y: Message)
    requires x.sentAt == time && y.sentAt == time
    ensures Before(At(q, time), x, y) <==> Before(q, x, y)
  {
    hide Before;
    if q == [] {
      NothingBefore(x, y);
    } else {
      var init, last := q[..|q| - 1], q[|q| - 1];
      AtKeepsOrder(init, time, x, y);
      BeforeLast(q, x, y);
      AtFinds(init, time);
      AtButLast(q, time);
      if last.sentAt == time {
        assert At(q, time)[..|At(q, time)| - 1] == At(init, time);
        BeforeLast(At(q, time), x, y);
      }
    }
  }

  lemma NothingBefore(x: Message, y: Message)
    ensures !Before([], x, y)
  {
  }

  lemma NothingAfterLast(q: seq<Message>, x: Message)
    requires NoDup(q) && q != []
    ensures !Before(q, q[|q| - 1], x)
  {
  }

  lemma AllButLast(q: seq<Message>)
    requires NoDup(q) && q != []
    ensures NoDup(q[..|q| - 1]) && forall m :: m in q[..|q| - 1] <==> m in q && m != q[|q| - 1]
  {
    assert q == q[..|q| - 1] + [q[|q| - 1]];
  }

  lemma SameLast(p: seq<Message>, q: seq<Message>)
    requires NoDup(q) && p != [] && q != [] && q[|q| - 1] in p
    requires forall i, j :: 0 <= i < j < |p| ==> Before(q, p[i], p[j])
    ensures p[|p| - 1] == q[|q| - 1]
  {
    var k :| 0 <= k < |p| && p[k] == q[|q| - 1];
    hide Before; hide NoDup;
    assert k == |p| - 1 || Before(q, p[k], p[|p| - 1]);
    NothingAfterLast(q, p[|p| - 1]);
  }

  // Two lists of the same different messages in the same order are equal.
  lemma {:induction false} SameOrder(p: seq<Message>, q: seq<Message>)
    requires NoDup(p) && NoDup(q) && forall m :: m in p <==> m in q
    requires forall i, j :: 0 <= i < j < |p| ==> Before(q, p[i], p[j])
    ensures p == q
    decreases |p|
  {
    hide Before; hide NoDup;
    assert (p == [] || p[0] in p) && (q == [] || q[0] in q);
    if p != [] && q != [] {
      var p', q' := p[..|p| - 1], q[..|q| - 1];
      assert q[|q| - 1] in p;
      SameLast(p, q);
      AllButLast(p);
      AllButLast(q);
      forall m ensures m in p' <==> m in q' {
        assert m in p <==> m in q;
      }
      forall i, j | 0 <= i < j < |p'| ensures Before(q', p'[i], p'[j]) {
        assert Before(q, p[i], p[j]);
        BeforeLast(q, p[i], p[j]);
        assert p'[j] in p';
      }
      SameOrder(p', q');
      assert p == p' + [p[|p| - 1]] && q == q' + [q[|q| - 1]];
    }
  }

  lemma {:induction false} AtDiffers(q: seq<Message>, time: int)
    requires NoDup(q)
    ensures NoDup(At(q, time))
  {
    if q != [] {
      AtDiffers(q[..|q| - 1], time);
      AtFinds(q[..|q| - 1], time);
    }
  }

  // The sort puts different messages into the order p exactly if p has the same
  // messages, never goes back in time, and has those of one moment as they came.
  lemma SortedAsIff(q: seq<Message>, p: seq<Message>)
    requires NoDup(q) && NoDup(p) && forall m :: m in p <==> m in q
    ensures StableSort(q) == p
      <==> forall i, j :: 0 <= i < j < |p| ==>
             p[i].sentAt < p[j].sentAt || (p[i].sentAt == p[j].sentAt && Before(q, p[i], p[j]))
  {
    hide Before;
    StableSortIff(q, p);
    if StableSort(q) == p {
      forall i, j | 0 <= i < j < |p| && p[i].sentAt >= p[j].sentAt
        ensures p[i].sentAt == p[j].sentAt && Before(q, p[i], p[j])
      {
        var time := p[i].sentAt;
        AtKeepsOrder(p, time, p[i], p[j]);
        AtKeepsOrder(q, time, p[i], p[j]);
        ThisBefore(p, i, j);
      }
    }
    if forall i, j :: 0 <= i < j < |p| ==>
         p[i].sentAt < p[j].sentAt || (p[i].sentAt == p[j].sentAt && Before(q, p[i], p[j])) {
      forall time ensures At(p, time) == At(q, time) {
        GroupInOrder(q, p, time);
      }
      hide At;
    }
  }

  lemma ThisBefore(p: seq<Message>, i: nat, j: nat)
    requires i < j < |p|
    ensures Before(p, p[i], p[j])
  {
  }

  lemma GroupInOrder(q: seq<Message>, p: seq<Message>, time: int)
    requires NoDup(q) && NoDup(p) && forall m :: m in p <==> m in q
    requires forall i, j :: 0 <= i < j < |p| && p[i].sentAt == p[j].sentAt ==> Before(q, p[i], p[j])
    ensures At(p, time) == At(q, time)
  {
    hide At;
    var a, b := At(p, time), At(q, time);
    AtFinds(p, time);
    AtFinds(q, time);
    AtDiffers(p, time);
    AtDiffers(q, time);
    forall i, j | 0 <= i < j < |a| ensures Before(b, a[i], a[j]) {
      assert a[i] in a && a[j] in a;
      AtKeepsOrder(p, time, a[i], a[j]);
      AtKeepsOrder(q, time, a[i], a[j]);
      ThisBefore(a, i, j);
      var k, l :| 0 <= k < l < |p| && p[k] == a[i] && p[l] == a[j];
    }
    SameOrder(a, b);
  }
}

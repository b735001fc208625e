/**
 The message repository: one bounded buffer per channel. Buffers is the value
 of the store; the unbounded log of everything saved exists only in the
 statements, which say that a buffer is always a slice of it.
 */
module MessageRepository {
  import opened Core

  const DEFAULT_CAP: nat := 200

  function Min(a: nat, b: nat): nat {
    if a <= b then a else b
  }

  // The last n elements, or all of them.
  function LastN<T>(q: seq<T>, n: nat): (r: seq<T>)
    ensures |r| == Min(n, |q|)
  {
    q[|q| - Min(n, |q|)..]
  }

  // The position of the first message with this id, or |buffer|.
  function IndexOf(buffer: seq<Message>, id: MessageId): (k: nat)
    ensures k <= |buffer|
    ensures k < |buffer| ==> buffer[k].id == id
    ensures forall i :: 0 <= i < k ==> buffer[i].id != id
  {
    if buffer == [] || buffer[0].id == id then 0 else 1 + IndexOf(buffer[1..], id)
  }

  ghost predicate DistinctIds(log: seq<Message>) {
    forall i, j :: 0 <= i < j < |log| ==> log[i].id != log[j].id
  }

  datatype Buffers = Buffers(cap: nat, byChannel: map<ChannelId, seq<Message>>) {

    function Of(channel: ChannelId): seq<Message> {
      if channel in byChannel then byChannel[channel] else []
    }

    function Save(message: Message): Buffers {
      this.(byChannel := byChannel[message.channel := LastN(Of(message.channel) + [message], cap)])
    }

    function Recent(channel: ChannelId, count: nat): seq<Message> {
      LastN(Of(channel), count)
    }

    // Up to count messages just before the one with the given id; nothing when
    // that message is not, or no longer, buffered.
    function ListBefore(channel: ChannelId, before: MessageId, count: nat): seq<Message> {
      var k := IndexOf(Of(channel), before);
      if k == |Of(channel)| then [] else LastN(Of(channel)[..k], count)
    }
  }

  function Empty(cap: nat): Buffers {
    Buffers(if cap == 0 then DEFAULT_CAP else cap, map[])
  }

  function SaveAll(buffers: Buffers, saves: seq<Message>): Buffers {
    if saves == [] then buffers
    else SaveAll(buffers, saves[..|saves| - 1]).Save(saves[|saves| - 1])
  }

  // The send log of one channel: its messages among all saves.
  function SentTo(saves: seq<Message>, channel: ChannelId): seq<Message> {
    if saves == [] then []
    else
      var last := saves[|saves| - 1];
      SentTo(saves[..|saves| - 1], channel) + if last.channel == channel then [last] else []
  }

  lemma {:induction false} SentToIsSaved(saves: seq<Message>, channel: ChannelId)
    ensures forall m :: m in SentTo(saves, channel) ==> m in saves && m.channel == channel
  {
    if saves != [] {
      SentToIsSaved(saves[..|saves| - 1], channel);
    }
  }

  // ----- The ring buffer keeps the tail of the log -----

  lemma SaveKeepsTail(buffers: Buffers, log: seq<Message>, channel: ChannelId, message: Message)
    requires buffers.Of(channel) == LastN(log, buffers.cap)
    ensures buffers.Save(message).Of(channel)
      == LastN(log + if message.channel == channel then [message] else [], buffers.cap)
  {
    if message.channel == channel {
      LastNSnoc(log, message, buffers.cap);
    } else {
      assert log + [] == log;
    }
  }

  lemma LastNSnoc<T>(q: seq<T>, x: T, n: nat)
    ensures LastN(LastN(q, n) + [x], n) == LastN(q + [x], n)
  {
  }

  // Whatever was saved before, to whichever channels: each buffer is exactly the
  // last min(n, cap) of its channel's n messages.
  lemma {:induction false} RingBufferKeepsTail(cap: nat, saves: seq<Message>, channel: ChannelId)
    ensures SaveAll(Empty(cap), saves).cap == Empty(cap).cap
    ensures SaveAll(Empty(cap), saves).Of(channel) == LastN(SentTo(saves, channel), Empty(cap).cap)
  {
    if saves != [] {
      var before, last := saves[..|saves| - 1], saves[|saves| - 1];
      RingBufferKeepsTail(cap, before, channel);
      SaveKeepsTail(SaveAll(Empty(cap), before), SentTo(before, channel), channel, last);
    }
  }

  // The first position of the log that is still buffered.
  function FirstRetained(log: seq<Message>, cap: nat): nat {
    |log| - Min(cap, |log|)
  }

  lemma {:induction false} IndexOfInTail(log: seq<Message>, k: nat, lo: nat)
    requires DistinctIds(log) && k < |log| && lo <= |log|
    ensures IndexOf(log[lo..], log[k].id) == if k < lo then |log| - lo else k - lo
  {
    var i := IndexOf(log[lo..], log[k].id);
    if i < |log| - lo {
      assert log[lo + i].id == log[k].id;
      assert lo + i == k;
    }
    assert k >= lo ==> log[lo..][k - lo] == log[k];
  }

  // Reading the newest messages of a buffer that holds the tail of a log.
  lemma RecentSlicesLog(buffers: Buffers, channel: ChannelId, log: seq<Message>, count: nat)
    requires buffers.Of(channel) == LastN(log, buffers.cap)
    ensures buffers.Recent(channel, count) == log[|log| - Min(count, Min(buffers.cap, |log|))..]
  {
  }

  // Reading before a cursor slices the log while the cursor is buffered and gives
  // nothing once it has been evicted.
  lemma ListBeforeSlicesLog(buffers: Buffers, channel: ChannelId, log: seq<Message>, k: nat, count: nat)
    requires buffers.Of(channel) == LastN(log, buffers.cap)
    requires DistinctIds(log) && k < |log|
    ensures var lo := FirstRetained(log, buffers.cap);
      buffers.ListBefore(channel, log[k].id, count)
        == if k < lo then [] else log[k - Min(count, k - lo)..k]
  {
    var lo := FirstRetained(log, buffers.cap);
    IndexOfInTail(log, k, lo);
    if lo <= k {
      assert log[lo..][..k - lo] == log[lo..k];
    }
  }

  // ----- The store itself -----

  class InMemoryMessageRepository {
    const cap: nat
    var buffers: map<ChannelId, seq<Message>>

    ghost function State(): Buffers
      reads this
    {
      Buffers(cap, buffers)
    }

    constructor (cap: nat)
      ensures State() == Empty(cap)
    {
      this.cap := if cap == 0 then DEFAULT_CAP else cap;
      buffers := map[];
    }

    method Save(message: Message)
      modifies this
      ensures State() == old(State()).Save(message)
    {
      var buffer := if message.channel in buffers then buffers[message.channel] else [];
      buffer := buffer + [message];
      ghost var full := buffer;
      while |buffer| > cap
        invariant |buffer| <= |full| && buffer == LastN(full, |buffer|)
        invariant |buffer| >= Min(cap, |full|)
      {
        buffer := buffer[1..];
      }
      buffers := buffers[message.channel := buffer];
    }

    method Recent(channel: ChannelId, count: nat) returns (r: seq<Message>)
      ensures r == State().Recent(channel, count)
    {
      if channel !in buffers || count == 0 {
        return [];
      }
      var buffer := buffers[channel];
      var take := Min(count, |buffer|);
      r := buffer[|buffer| - take..];
    }

    method ListBefore(channel: ChannelId, before: MessageId, count: nat) returns (r: seq<Message>)
      ensures r == State().ListBefore(channel, before, count)
    {
      if channel !in buffers || count == 0 {
        return [];
      }
      var buffer := buffers[channel];
      var cursor := IndexOf(buffer, before);
      if cursor == |buffer| {
        return [];
      }
      var take := Min(count, cursor);
      r := buffer[cursor - take..cursor];
    }
  }
}

/**
 The publisher of the channel list: a snapshot on subscription, then changes to
 every subscriber. The module SnapshotProtocol treats the same operations
 under concurrency.
 */
module ListPublisher {
  import opened Core
  import opened ChannelRepository
  import opened UseCases
  import opened Writers

  datatype Summary = Summary(id: ChannelId, name: ChannelName, count: nat)

  datatype ListEvent =
    | Snapshot(channels: seq<Summary>)
    | Created(summary: Summary)
    | CountChanged(channel: ChannelId, count: nat)

  type ListStreams = Streams<ListEvent>

  function Summarise(channel: ChannelRecord): Summary {
    Summary(channel.id, channel.name, |channel.members|)
  }

  function SummariseAll(channels: seq<ChannelRecord>): seq<Summary> {
    seq(|channels|, i requires 0 <= i < |channels| => Summarise(channels[i]))
  }

  function Broadcast(s: ListStreams, event: ListEvent): ListStreams {
    s.Deliver(s.writers.Keys, event)
  }

  function Apply(s: ListStreams, call: Call): ListStreams {
    match call
    case ChannelCreated(channel) => Broadcast(s, Created(Summarise(channel)))
    case MemberCountChanged(channel, count) => Broadcast(s, CountChanged(channel, count))
    case _ => s
  }

  function ApplyAll(s: ListStreams, calls: seq<Call>): ListStreams {
    if calls == [] then s
    else Apply(ApplyAll(s, calls[..|calls| - 1]), calls[|calls| - 1])
  }

  lemma {:induction false} ApplyAllAppended(s: ListStreams, a: seq<Call>, b: seq<Call>)
    ensures ApplyAll(s, a + b) == ApplyAll(ApplyAll(s, a), b)
    decreases |b|
  {
    if b == [] {
      assert a + b == a;
    } else {
      assert (a + b)[..|a + b| - 1] == a + b[..|b| - 1];
      ApplyAllAppended(s, a, b[..|b| - 1]);
    }
  }

  class GrpcChannelListPublisher {
    const channels: InMemoryChannelRepository
    const table: WriterTable<ListEvent>

    constructor (channels: InMemoryChannelRepository)
      ensures this.channels == channels && fresh(table)
      ensures table.Valid() && table.State() == Streams(map[], map[])
    {
      this.channels := channels;
      table := new WriterTable();
    }

    method RegisterSubscriberWithSnapshot(id: ClientId, writer: WriterId) returns (ghost listed: seq<ChannelRecord>)
      requires table.Valid() && writer !in table.written
      modifies table
      ensures Lists(listed, channels.State())
      ensures table.Valid() && id in table.writers && fresh(table.writers[id])
      ensures table.writers == old(table.writers)[id := table.writers[id]]
      ensures table.State() == old(table.State()).Register(id, writer, [Snapshot(SummariseAll(listed))])
    {
      table.Register(id, writer, []);
      var all := channels.ListAll();
      listed := all;
      FirstDelivery(old(table.State()), id, writer, Snapshot(SummariseAll(all)));
      table.WriteTo(id, Snapshot(SummariseAll(all)));
    }

    method UnregisterSubscriber(id: ClientId)
      requires table.Valid()
      modifies table`writers, if id in table.writers then {table.writers[id]} else {}
      ensures table.Valid() && table.State() == old(table.State()).Unregister(id)
      ensures id in old(table.writers) ==> old(table.writers[id]).writer == None
    {
      table.Unregister(id);
    }

    method PublishChannelCreated(channel: ChannelRecord)
      requires table.Valid()
      modifies table`written
      ensures table.Valid() && table.writers == old(table.writers)
      ensures table.State() == Apply(old(table.State()), ChannelCreated(channel))
    {
      table.Broadcast(table.writers.Keys, Created(Summarise(channel)));
    }

    method PublishMemberCountChanged(channel: ChannelId, count: nat)
      requires table.Valid()
      modifies table`written
      ensures table.Valid() && table.writers == old(table.writers)
      ensures table.State() == Apply(old(table.State()), MemberCountChanged(channel, count))
    {
      table.Broadcast(table.writers.Keys, CountChanged(channel, count));
    }
  }
}

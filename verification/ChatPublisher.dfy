/**
 The publisher of channel events: messages to one recipient, joins and leaves to
 a set of recipients. The module WriterProtocol treats the same operations under
 concurrency.
 */
module ChatPublisher {
  import opened Core
  import opened ClientRegistry
  import opened UseCases
  import opened Writers

  datatype ChatEvent =
    | MessageEvent(message: Message, senderName: Option<Username>)
    | JoinedEvent(channel: ChannelId, client: ClientId, username: Username)
    | LeftEvent(channel: ChannelId, client: ClientId, username: Username)

  type ChatStreams = Streams<ChatEvent>

  // The names of all clients that ever registered.
  type Names = map<ClientId, Username>

  function MessageToEvent(message: Message, names: Names): ChatEvent {
    MessageEvent(message, if message.sender in names then Some(names[message.sender]) else None)
  }

  // What one call to the port does to the streams.
  function Apply(s: ChatStreams, call: Call, names: Names): ChatStreams {
    match call
    case MemberJoined(channel, recipients, client, username) =>
      s.Deliver(recipients, JoinedEvent(channel, client, username))
    case MemberLeft(channel, recipients, client, username) =>
      s.Deliver(recipients, LeftEvent(channel, client, username))
    case Published(recipient, message) =>
      s.Deliver({recipient}, MessageToEvent(message, names))
    case Unsubscribed(client) => s.Unregister(client)
    case _ => s
  }

  function ApplyAll(s: ChatStreams, calls: seq<Call>, names: Names): ChatStreams {
    if calls == [] then s
    else Apply(ApplyAll(s, calls[..|calls| - 1], names), calls[|calls| - 1], names)
  }

  lemma {:induction false} ApplyAllAppended(s: ChatStreams, a: seq<Call>, b: seq<Call>, names: Names)
    ensures ApplyAll(s, a + b, names) == ApplyAll(ApplyAll(s, a, names), b, names)
    decreases |b|
  {
    if b == [] {
      assert a + b == a;
    } else {
      assert (a + b)[..|a + b| - 1] == a + b[..|b| - 1];
      ApplyAllAppended(s, a, b[..|b| - 1], names);
    }
  }

  class GrpcClientPublisher {
    const clientRegistry: InMemoryClientRegistry
    const table: WriterTable<ChatEvent>

    constructor (clientRegistry: InMemoryClientRegistry)
      ensures this.clientRegistry == clientRegistry && fresh(table)
      ensures table.Valid() && table.State() == Streams(map[], map[])
    {
      this.clientRegistry := clientRegistry;
      table := new WriterTable();
    }

    method RegisterSubscriber(id: ClientId, writer: WriterId)
      requires table.Valid() && writer !in table.written
      modifies table
      ensures table.Valid() && table.State() == old(table.State()).Register(id, writer, [])
      ensures id in table.writers && fresh(table.writers[id])
      ensures table.writers == old(table.writers)[id := table.writers[id]]
    {
      table.Register(id, writer, []);
    }

    method UnregisterSubscriber(id: ClientId)
      requires table.Valid()
      modifies table`writers, if id in table.writers then {table.writers[id]} else {}
      ensures table.writers == old(table.writers) - {id}
      ensures table.Valid()
      ensures table.State() == Apply(old(table.State()), Unsubscribed(id), clientRegistry.State().historical)
      ensures id in old(table.writers) ==> old(table.writers[id]).writer == None
    {
      table.Unregister(id);
    }

    method Publish(recipient: ClientId, message: Message)
      requires table.Valid()
      modifies table`written
      ensures table.Valid() && table.writers == old(table.writers)
      ensures table.State()
        == Apply(old(table.State()), Published(recipient, message), clientRegistry.State().historical)
      ensures var name := clientRegistry.State().LookupUsername(message.sender);
        table.State() == old(table.State()).Deliver({recipient},
          MessageEvent(message, if name.Ok? then Some(name.value) else None))
    {
      var name := clientRegistry.LookupUsername(message.sender);
      table.WriteTo(recipient, MessageEvent(message, if name.Ok? then Some(name.value) else None));
    }

    method BroadcastMemberJoined(channel: ChannelId, recipients: set<ClientId>, client: ClientId, username: Username)
      requires table.Valid()
      modifies table`written
      ensures table.Valid() && table.writers == old(table.writers)
      ensures table.State()
        == Apply(old(table.State()), MemberJoined(channel, recipients, client, username),
                 clientRegistry.State().historical)
      ensures table.State() == old(table.State()).Deliver(recipients, JoinedEvent(channel, client, username))
    {
      table.Broadcast(recipients, JoinedEvent(channel, client, username));
    }

    method BroadcastMemberLeft(channel: ChannelId, recipients: set<ClientId>, client: ClientId, username: Username)
      requires table.Valid()
      modifies table`written
      ensures table.Valid() && table.writers == old(table.writers)
      ensures table.State()
        == Apply(old(table.State()), MemberLeft(channel, recipients, client, username),
                 clientRegistry.State().historical)
      ensures table.State() == old(table.State()).Deliver(recipients, LeftEvent(channel, client, username))
    {
      table.Broadcast(recipients, LeftEvent(channel, client, username));
    }
  }
}

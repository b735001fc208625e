/**
 The use cases as functions on the three stores. Each one runs as a whole; the
 module Interleaving cuts the same operations into their lock-protected steps.

 An outcome holds the new stores, the calls made to the two publishers in the
 order in which they were made, and the answer. Where the original walks an
 unordered container, the order of the walk is a parameter.
 */
module UseCases {
  import opened Core
  import opened ChannelRepository
  import opened ClientRegistry
  import opened MessageRepository
  import Text

  datatype Stores = Stores(repo: Repo, clients: Registry, messages: Buffers)

  datatype Call =
    | MemberJoined(channel: ChannelId, recipients: set<ClientId>, client: ClientId, username: Username)
    | MemberLeft(channel: ChannelId, recipients: set<ClientId>, client: ClientId, username: Username)
    | Published(recipient: ClientId, message: Message)
    | Unsubscribed(client: ClientId)
    | ChannelCreated(created: ChannelRecord)
    | MemberCountChanged(channel: ChannelId, count: nat)

  datatype Outcome<+T> = Outcome(stores: Stores, calls: seq<Call>, result: Result<T>)

  function Refused<T>(s: Stores, error: Error): Outcome<T> {
    Outcome(s, [], Err(error))
  }

  // ----- Removing a member -----

  function RemoveMemberAndBroadcast(s: Stores, session: SessionRecord, channelId: ChannelId): Outcome<Unit> {
    match s.repo.Find(channelId)
    case Err(e) => Refused(s, e)
    case Ok(channel) =>
      if session.id !in channel.members then Refused(s, NotAMember)
      else
        var rest := channel.(members := channel.members - {session.id});
        Outcome(s.(repo := s.repo.Save(rest)),
                [MemberLeft(channelId, rest.members, session.id, session.username)],
                Ok(Unit))
  }

  function CountCalls(repo: Repo, channelId: ChannelId): seq<Call> {
    if repo.Find(channelId).Ok? then [MemberCountChanged(channelId, |repo.Find(channelId).value.members|)] else []
  }

  // ----- Leaving and joining -----

  function Leave(s: Stores, clientId: ClientId, channelId: ChannelId): Outcome<Unit> {
    match s.clients.Find(clientId)
    case Err(e) => Refused(s, e)
    case Ok(session) =>
      var removed := RemoveMemberAndBroadcast(s, session, channelId);
      if removed.result.Err? then removed
      else
        var left := removed.stores.(clients := removed.stores.clients.Leave(clientId, channelId).0);
        match left.repo.Find(channelId)
        case Err(e) => Outcome(left, removed.calls, Err(e))
        case Ok(channel) =>
          Outcome(left, removed.calls + [MemberCountChanged(channelId, |channel.members|)], Ok(Unit))
  }

  function LeaveOne(s: Stores, session: SessionRecord, channelId: ChannelId): Outcome<Unit> {
    var removed := RemoveMemberAndBroadcast(s, session, channelId);
    var left := removed.stores.(clients := removed.stores.clients.Leave(session.id, channelId).0);
    Outcome(left, removed.calls + CountCalls(left.repo, channelId), Ok(Unit))
  }

  // The loop over the session's other channels, in the given order.
  function LeaveOtherChannels(s: Stores, session: SessionRecord, others: seq<ChannelId>): Outcome<Unit> {
    if others == [] then Outcome(s, [], Ok(Unit))
    else
      var before := LeaveOtherChannels(s, session, others[..|others| - 1]);
      var one := LeaveOne(before.stores, session, others[|others| - 1]);
      Outcome(one.stores, before.calls + one.calls, Ok(Unit))
  }

  // Entering the target channel through a copy of it that was read earlier.
  function Enter(s: Stores, session: SessionRecord, channel: ChannelRecord): Outcome<Unit> {
    var joined := channel.(members := channel.members + {session.id});
    var already := session.id in channel.members;
    var saved := if already then s else s.(repo := s.repo.Save(joined));
    var (clients, r) := saved.clients.Join(session.id, channel.id);
    if r.Err? then Outcome(saved, [], Err(r.error))
    else
      Outcome(saved.(clients := clients),
              if already then []
              else [MemberJoined(channel.id, joined.members, session.id, session.username),
                    MemberCountChanged(channel.id, |joined.members|)],
              Ok(Unit))
  }

  // What both kinds of join do with the session and the copy of the target
  // channel, both read before the other channels are left.
  function JoinLoaded(s: Stores, session: SessionRecord, channel: ChannelRecord,
                      others: seq<ChannelId>): Outcome<Unit>
  {
    var left := LeaveOtherChannels(s, session, others);
    var entered := Enter(left.stores, session, channel);
    Outcome(entered.stores, left.calls + entered.calls, entered.result)
  }

  function Join(s: Stores, clientId: ClientId, channelId: ChannelId, others: seq<ChannelId>): Outcome<Unit> {
    match s.clients.Find(clientId)
    case Err(e) => Refused(s, e)
    case Ok(session) =>
      match s.repo.Find(channelId)
      case Err(e) => Refused(s, e)
      case Ok(channel) => JoinLoaded(s, session, channel, others)
  }

  function JoinByName(s: Stores, clientId: ClientId, name: string, others: seq<ChannelId>): Outcome<ChannelId> {
    match s.clients.Find(clientId)
    case Err(e) => Refused(s, e)
    case Ok(session) =>
      match Text.CreateChannelName(Text.Trim(name))
      case None => Refused(s, InvalidChannelName)
      case Some(valid) =>
        match s.repo.FindByName(valid)
        case Err(e) => Refused(s, e)
        case Ok(channel) =>
          var joined := JoinLoaded(s, session, channel, others);
          Outcome(joined.stores, joined.calls, if joined.result.Ok? then Ok(channel.id) else Err(joined.result.error))
  }

  // ----- The other requests -----

  function Connect(s: Stores, name: string, newId: ClientId, now: int): Outcome<ClientId> {
    match Text.CreateUsername(Text.Trim(name))
    case None => Refused(s, InvalidUsername)
    case Some(username) =>
      var (clients, r) := s.clients.Register(username, newId, now);
      Outcome(s.(clients := clients), [], if r.Ok? then Ok(r.value.id) else Err(r.error))
  }

  function Heartbeat(s: Stores, clientId: ClientId, now: int): Outcome<Unit> {
    var (clients, r) := s.clients.Touch(clientId, now);
    Outcome(s.(clients := clients), [], r)
  }

  function CreateChannel(s: Stores, clientId: ClientId, name: string, newId: ChannelId): Outcome<ChannelId> {
    match s.clients.Find(clientId)
    case Err(e) => Refused(s, e)
    case Ok(_) =>
      match Text.CreateChannelName(Text.Trim(name))
      case None => Refused(s, InvalidChannelName)
      case Some(valid) =>
        match s.repo.Create(valid, newId)
        case (_, Err(e)) => Refused(s, e)
        case (repo, Ok(channel)) => Outcome(s.(repo := repo), [ChannelCreated(channel)], Ok(channel.id))
  }

  datatype EchoPolicy = ExcludeSender | IncludeSender

  function Recipients(channel: ChannelRecord, sender: ClientId, echo: EchoPolicy): set<ClientId> {
    if echo.ExcludeSender? then channel.members - {sender} else channel.members
  }

  function PublishCalls(recipients: seq<ClientId>, message: Message): seq<Call> {
    seq(|recipients|, i requires 0 <= i < |recipients| => Published(recipients[i], message))
  }

  // order lists the recipients in the order in which the member set is walked.
  function Send(s: Stores, sender: ClientId, channelId: ChannelId, content: string,
                newId: MessageId, now: int, order: seq<ClientId>): Outcome<MessageId>
  {
    match s.clients.Find(sender)
    case Err(e) => Refused(s, e)
    case Ok(_) =>
      match s.repo.Find(channelId)
      case Err(e) => Refused(s, e)
      case Ok(channel) =>
        if sender !in channel.members then Refused(s, NotAMember)
        else
          match Text.CreateContent(content)
          case Err(e) => Refused(s, e)
          case Ok(valid) =>
            var message := Message(newId, sender, channelId, valid, now);
            Outcome(s.(messages := s.messages.Save(message)), PublishCalls(order, message), Ok(newId))
  }

  // ----- Disconnecting and expiring -----

  function LeaveEach(s: Stores, clientId: ClientId, channels: seq<ChannelId>): (Stores, seq<Call>) {
    if channels == [] then (s, [])
    else
      var (before, calls) := LeaveEach(s, clientId, channels[..|channels| - 1]);
      var left := Leave(before, clientId, channels[|channels| - 1]);
      (left.stores, calls + left.calls)
  }

  // Leaving a channel may fail; the loop goes on.
  function Disconnect(s: Stores, clientId: ClientId, channels: seq<ChannelId>): Outcome<Unit> {
    match s.clients.Find(clientId)
    case Err(e) => Refused(s, e)
    case Ok(_) =>
      var (left, calls) := LeaveEach(s, clientId, channels);
      var (clients, r) := left.clients.Remove(clientId);
      Outcome(left.(clients := clients), if r.Ok? then calls + [Unsubscribed(clientId)] else calls, r)
  }

  function RemoveFromEach(s: Stores, session: SessionRecord, channels: seq<ChannelId>): (Stores, seq<Call>) {
    if channels == [] then (s, [])
    else
      var (before, calls) := RemoveFromEach(s, session, channels[..|channels| - 1]);
      var removed := RemoveMemberAndBroadcast(before, session, channels[|channels| - 1]);
      (removed.stores, calls + removed.calls)
  }

  // One expired session, copied before the sweep began, with the order of its channels.
  datatype Doomed = Doomed(session: SessionRecord, channels: seq<ChannelId>)

  function ExpireOne(s: Stores, doomed: Doomed): (Stores, seq<Call>) {
    var (removed, calls) := RemoveFromEach(s, doomed.session, doomed.channels);
    (removed.(clients := removed.clients.Remove(doomed.session.id).0), calls + [Unsubscribed(doomed.session.id)])
  }

  function Sweep(s: Stores, doomed: seq<Doomed>): (Stores, seq<Call>) {
    if doomed == [] then (s, [])
    else
      var (before, calls) := Sweep(s, doomed[..|doomed| - 1]);
      var (after, more) := ExpireOne(before, doomed[|doomed| - 1]);
      (after, calls + more)
  }

  // doomed is what collectExpired returns, with the orders of the two loops.
  ghost predicate Collected(s: Stores, deadline: int, doomed: seq<Doomed>) {
    && Enumerates(Ids(doomed), s.clients.Expired(deadline))
    && forall i :: 0 <= i < |doomed| ==>
         && doomed[i].session.id in s.clients.byId
         && doomed[i].session == s.clients.byId[doomed[i].session.id]
         && Enumerates(doomed[i].channels, doomed[i].session.joined)
  }

  function Ids(doomed: seq<Doomed>): (ids: seq<ClientId>)
    ensures |ids| == |doomed|
  {
    seq(|doomed|, i requires 0 <= i < |doomed| => doomed[i].session.id)
  }
}

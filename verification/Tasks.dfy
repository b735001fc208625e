/**
 The requests cut into the lock-protected sections of the stores. A task is
 either done or about to run one section; what it remembers meanwhile, such as
 copies of a channel or a session that may be out of date by now, sits in the
 frame that says how it goes on. Calls to the publishers take no store lock
 that matters here and are left to the protocol modules.
 */
module Tasks {
  import opened Core
  import opened ChannelRepository
  import opened ClientRegistry
  import opened UseCases
  import opened Sections
  import Text

  // The orders in which a sweep walks the channels of the sessions it removes.
  type Walks = map<ClientId, seq<ChannelId>>

  // The walks are the orders in which unordered containers are going to be walked;
  // one that does not list the container as it is by then asks for nothing.
  datatype Request =
    | Connect(name: string, newClient: ClientId, now: int)
    | Heartbeat(client: ClientId, now: int)
    | CreateChannel(client: ClientId, name: string, newChannel: ChannelId)
    | JoinChannel(client: ClientId, channel: ChannelId, walk: seq<ChannelId>)
    | JoinChannelByName(client: ClientId, name: string, walk: seq<ChannelId>)
    | LeaveChannel(client: ClientId, channel: ChannelId)
    | SendMessage(client: ClientId, channel: ChannelId, content: string, newMessage: MessageId, now: int)
    | Disconnect(client: ClientId, walk: seq<ChannelId>)
    | Expire(deadline: int, order: seq<ClientId>, walks: Walks)

  // A message goes to those whom its sender's copy of the room lists.
  datatype Value =
    | Nothing
    | NewClient(client: ClientId)
    | NewChannel(channel: ChannelId)
    | NewMessage(message: MessageId, room: set<ClientId>)

  datatype Answer = Answer(result: Result<Value>)

  // Who called leave: a client, or Disconnect with more channels to leave.
  datatype Caller = ByRequest | ByDisconnect(rest: seq<ChannelId>)

  // Who called removeMemberAndBroadcast.
  datatype Remover =
    | Leaving(caller: Caller)
    | Joining(target: ChannelRecord, rest: seq<ChannelId>)
    | Expiring(channels: seq<ChannelId>, sessions: seq<SessionRecord>, walks: Walks)

  datatype Frame =
    | Connected
    | Touched
    | CreatorFound(name: string, newChannel: ChannelId)
    | Created
    | JoinerFound(channel: ChannelId, walk: seq<ChannelId>)
    | JoinerByNameFound(name: string, walk: seq<ChannelId>)
    | TargetFound(session: SessionRecord, walk: seq<ChannelId>)
    | MemberFound(session: SessionRecord, channel: ChannelId, remover: Remover)
    | MemberRemoved(session: SessionRecord, channel: ChannelId, remover: Remover)
    | OtherLeft(session: SessionRecord, channel: ChannelId, target: ChannelRecord, rest: seq<ChannelId>)
    | OtherCounted(session: SessionRecord, target: ChannelRecord, rest: seq<ChannelId>)
    | TargetSaved(session: SessionRecord, target: ChannelRecord)
    | Entered
    | LeaverFound(client: ClientId, channel: ChannelId, caller: Caller)
    | Left(client: ClientId, channel: ChannelId, caller: Caller)
    | LeftCounted(client: ClientId, caller: Caller)
    | DisconnectingFound(client: ClientId, walk: seq<ChannelId>)
    | Disconnected
    | SenderFound(client: ClientId, channel: ChannelId, content: string, newMessage: MessageId, now: int)
    | RoomFound(client: ClientId, channel: ChannelId, content: string, newMessage: MessageId, now: int)
    | Sent(message: MessageId, room: set<ClientId>)
    | ExpiredCollected(walks: Walks)
    | ExpiredRemoved(sessions: seq<SessionRecord>, walks: Walks)

  datatype Task = Done(answer: Answer) | Running(op: Op, frame: Frame)

  function Fail(error: Error): Task {
    Done(Answer(Err(error)))
  }

  function Succeed(value: Value): Task {
    Done(Answer(Ok(value)))
  }

  function Start(request: Request): Task {
    match request
    case Connect(name, newClient, now) =>
      (match Text.CreateUsername(Text.Trim(name))
       case None => Fail(InvalidUsername)
       case Some(username) => Running(Register(username, newClient, now), Connected))
    case Heartbeat(client, now) => Running(Touch(client, now), Touched)
    case CreateChannel(client, name, newChannel) => Running(FindSession(client), CreatorFound(name, newChannel))
    case JoinChannel(client, channel, walk) => Running(FindSession(client), JoinerFound(channel, walk))
    case JoinChannelByName(client, name, walk) => Running(FindSession(client), JoinerByNameFound(name, walk))
    case LeaveChannel(client, channel) => StartLeave(client, channel, ByRequest)
    case SendMessage(client, channel, content, newMessage, now) =>
      Running(FindSession(client), SenderFound(client, channel, content, newMessage, now))
    case Disconnect(client, walk) => Running(FindSession(client), DisconnectingFound(client, walk))
    case Expire(deadline, order, walks) => Running(Op.CollectExpired(deadline, order), ExpiredCollected(walks))
  }

  function StartLeave(client: ClientId, channel: ChannelId, caller: Caller): Task {
    Running(FindSession(client), LeaverFound(client, channel, caller))
  }

  function StartRemove(session: SessionRecord, channel: ChannelId, remover: Remover): Task {
    Running(FindChannel(channel), MemberFound(session, channel, remover))
  }

  // The loop that leaves the other channels, and after it the join proper.
  function LeaveOthersOrEnter(session: SessionRecord, target: ChannelRecord, others: seq<ChannelId>): Task {
    if others != [] then StartRemove(session, others[0], Joining(target, others[1..]))
    else if session.id in target.members then Running(JoinAtomic(session.id, target.id), Entered)
    else
      var joined := target.(members := target.members + {session.id});
      Running(Op.SaveChannel(joined), TargetSaved(session, joined))
  }

  // The loop over the channels of a disconnecting client.
  function LeaveNextOrRemove(client: ClientId, channels: seq<ChannelId>): Task {
    if channels != [] then StartLeave(client, channels[0], ByDisconnect(channels[1..]))
    else Running(RemoveSession(client), Disconnected)
  }

  // The loops of the sweep.
  function ExpireNextChannel(session: SessionRecord, channels: seq<ChannelId>, sessions: seq<SessionRecord>,
                             walks: Walks): Task
  {
    if channels != [] then StartRemove(session, channels[0], Expiring(channels[1..], sessions, walks))
    else Running(RemoveSession(session.id), ExpiredRemoved(sessions, walks))
  }

  ghost function ChannelOrder(session: SessionRecord, walks: Walks): (order: seq<ChannelId>)
    ensures Enumerates(order, session.joined)
  {
    InOrder(if session.id in walks then walks[session.id] else [], session.joined)
  }

  ghost function ExpireNextSession(sessions: seq<SessionRecord>, walks: Walks): Task {
    if sessions == [] then Succeed(Nothing)
    else ExpireNextChannel(sessions[0], ChannelOrder(sessions[0], walks), sessions[1..], walks)
  }

  function AfterLeave(client: ClientId, caller: Caller, result: Result<Unit>): Task {
    match caller
    case ByRequest => if result.Ok? then Succeed(Nothing) else Fail(result.error)
    case ByDisconnect(rest) => LeaveNextOrRemove(client, rest)
  }

  // removeMemberAndBroadcast has returned.
  ghost function AfterRemove(session: SessionRecord, channel: ChannelId, remover: Remover, result: Result<Unit>): Task {
    match remover
    case Leaving(caller) =>
      if result.Err? then AfterLeave(session.id, caller, result)
      else Running(LeaveAtomic(session.id, channel), Left(session.id, channel, caller))
    case Joining(target, rest) => Running(LeaveAtomic(session.id, channel), OtherLeft(session, channel, target, rest))
    case Expiring(channels, sessions, walks) => ExpireNextChannel(session, channels, sessions, walks)
  }

  ghost function OnSession(frame: Frame, session: SessionRecord): Task {
    match frame
    case CreatorFound(name, newChannel) =>
      (match Text.CreateChannelName(Text.Trim(name))
       case None => Fail(InvalidChannelName)
       case Some(valid) => Running(MakeChannel(valid, newChannel), Created))
    case JoinerFound(channel, walk) => Running(FindChannel(channel), TargetFound(session, walk))
    case JoinerByNameFound(name, walk) =>
      (match Text.CreateChannelName(Text.Trim(name))
       case None => Fail(InvalidChannelName)
       case Some(valid) => Running(FindChannelByName(valid), TargetFound(session, walk)))
    case LeaverFound(_, channel, caller) => StartRemove(session, channel, Leaving(caller))
    case DisconnectingFound(client, walk) => LeaveNextOrRemove(client, InOrder(walk, session.joined))
    case SenderFound(client, channel, content, newMessage, now) =>
      Running(FindChannel(channel), RoomFound(client, channel, content, newMessage, now))
    case _ => Succeed(NewClient(session.id))   // Connected
  }

  ghost function OnChannel(frame: Frame, record: ChannelRecord): Task {
    match frame
    case TargetFound(session, walk) =>
      LeaveOthersOrEnter(session, record, InOrder(walk, session.joined - {record.id}))
    case MemberFound(session, channel, remover) =>
      if session.id !in record.members then AfterRemove(session, channel, remover, Err(NotAMember))
      else
        var rest := record.(members := record.members - {session.id});
        Running(Op.SaveChannel(rest), MemberRemoved(session, channel, remover))
    case OtherCounted(session, target, rest) => LeaveOthersOrEnter(session, target, rest)
    case LeftCounted(client, caller) => AfterLeave(client, caller, Ok(Unit))
    case RoomFound(client, channel, content, newMessage, now) =>
      if client !in record.members then Fail(NotAMember)
      else
        (match Text.CreateContent(content)
         case Err(e) => Fail(e)
         case Ok(valid) =>
           Running(SaveMessage(Message(newMessage, client, channel, valid, now)), Sent(newMessage, record.members)))
    case _ => Succeed(NewChannel(record.id))   // Created
  }

  ghost function OnError(frame: Frame, error: Error): Task {
    match frame
    case MemberFound(session, channel, remover) => AfterRemove(session, channel, remover, Err(error))
    case OtherCounted(session, target, rest) => LeaveOthersOrEnter(session, target, rest)
    case LeaverFound(client, _, caller) => AfterLeave(client, caller, Err(error))
    case LeftCounted(client, caller) => AfterLeave(client, caller, Err(error))
    case _ => Fail(error)
  }

  ghost function OnUnit(frame: Frame, done: Result<Unit>): Task {
    match frame
    case MemberRemoved(session, channel, remover) => AfterRemove(session, channel, remover, Ok(Unit))
    case OtherLeft(session, channel, target, rest) => Running(FindChannel(channel), OtherCounted(session, target, rest))
    case TargetSaved(session, target) => Running(JoinAtomic(session.id, target.id), Entered)
    case Left(client, channel, caller) => Running(FindChannel(channel), LeftCounted(client, caller))
    case ExpiredRemoved(sessions, walks) => ExpireNextSession(sessions, walks)
    case Sent(message, room) => Succeed(NewMessage(message, room))
    case _ => if done.Ok? then Succeed(Nothing) else Fail(done.error)   // Touched, Entered, Disconnected
  }

  ghost function Resume(frame: Frame, reply: Reply): Task {
    match reply
    case ChannelReply(found) => if found.Ok? then OnChannel(frame, found.value) else OnError(frame, found.error)
    case SessionReply(session) => if session.Ok? then OnSession(frame, session.value) else OnError(frame, session.error)
    case UnitReply(done) => OnUnit(frame, done)
    case Expired(sessions) => ExpireNextSession(sessions, if frame.ExpiredCollected? then frame.walks else map[])
  }

  // ----- One task on its own -----

  datatype Alone = Alone(stores: Stores, task: Task)

  // The next section of a task; a task that is done stays done.
  ghost function StepAlone(a: Alone): Alone {
    if a.task.Done? then a
    else Alone(StoresAfter(a.stores, a.task.op), Resume(a.task.frame, ReplyTo(a.stores, a.task.op)))
  }

  ghost function RunAlone(a: Alone, n: nat): Alone {
    if n == 0 then a else StepAlone(RunAlone(a, n - 1))
  }

  lemma {:induction false} RunAloneAdds(a: Alone, m: nat, n: nat)
    ensures RunAlone(a, m + n) == RunAlone(RunAlone(a, m), n)
  {
    hide StepAlone;
    if n > 0 {
      RunAloneAdds(a, m, n - 1);
    }
  }

  lemma {:induction false} DoneStaysDone(a: Alone, n: nat)
    requires a.task.Done?
    ensures RunAlone(a, n) == a
  {
    if n > 0 {
      DoneStaysDone(a, n - 1);
    }
  }
}

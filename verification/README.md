# bcmd: membership, history and delivery

A Dafny model of the broadcast chat server of bcmd and of the client logic that
has to agree with it: who is in which channel, what each channel's bounded
history holds, what every subscriber is sent, and what the web client shows.

`dafny verify dfyconfig.toml` checks the whole project.

## How the model is laid out

The same operations appear in three forms that are proved to fit together.

- **In place.** `DomainModel`, `ChannelRepository`, `ClientRegistry`,
  `MessageRepository`, `Writers`, `ChatPublisher`, `ListPublisher` and `Server`
  hold classes with the fields, loops and assignments of the original. Every
  method is proved against a function on values.
- **One request, one step.** `UseCases` has these functions; `Membership` and
  `Expiry` give them closed forms; `Runs` strings requests and sweeps together
  into runs of any length. `Delivery`, `Announcements` and `ListAgreement` speak of
  the streams of such runs, `Answers` of what clients are answered and can rely on,
  `ListMessages` of paged history.
- **One lock-protected section, one step.** `Tasks` cuts the use cases into the
  sections of `Sections`, with the stale copies that a task carries from one to
  the next; `Interleaving`, `Independence` and `Atomicity` quantify over all
  schedules, and `Atomicity` shows that an undisturbed task does what its use
  case does. `SnapshotProtocol` and `WriterProtocol` treat the two publishers
  at the granularity of their two lock levels, `ListRounds` and `ChatRounds` what
  their calls have done by the time they are over, `LockOrder` the locks themselves,
  and `Races`, `Departures`, `JoinRaces` and `Sweeping` say exactly what is left of
  the promises about whole requests when requests overlap on a channel or a session.

On the client side `ChannelsStore` and `MessageView` are the stores of the web
client, `LiveHistory` joins the message view with the server's log, `HistoryPaging`
follows its older pages to the end, `LiveView` compares what is shown with that log,
`LiveDelivery` ties both to the runs of whole requests, and `Text` covers trimming,
the command line of the terminal client and the server's content check.

Ids are abstract and fresh ones are passed in; a clock reading is an integer
parameter; writing to a client appends to the stream of its writer. Where the
original walks an unordered container, the order is a parameter or a ghost
result, and the theorems, those about interleavings included, hold for all orders.

## What the code does not give

Each of these has a lemma with a concrete run and one with the exact condition.

- Two joins of one channel that overlap can lose a member, because a join writes back
  a copy of the channel (`Races.FirstJoinIsLost`), and can likewise leave a member
  behind in a channel both were in (`JoinRaces.FirstStaysBehind`). In the channel
  entered, two-way membership survives exactly if one of the clients was a member
  before or one task read the channel after the other had saved it
  (`Races.BothAreMembersIff`, `Races.LinkSurvivesIff`); the condition for all channels
  is `JoinRaces.AllLinksSurviveIff`. It always survives when requests share nothing
  (`Atomicity.DisjointNeedsKeepLinks`).
- A message goes to the members in the copy of the channel that its sender read.
  A client that joins meanwhile can be passed by although it was a member before
  the message was saved (`Races.NewMemberIsPassedBy`, `Races.NewMemberGetsMessageIff`);
  one that leaves or moves to another channel meanwhile can still be sent it
  (`Departures.MessageFollowsDeparted`, `Departures.DepartedGetsMessageIff`); and of
  two overlapping sends the later can be delivered first
  (`WriterProtocol.PublishesCanOvertake`). That a member gets the log in order, without
  a gap, and nobody else gets anything, and that it can keep the member set by its
  stream, holds while requests run as a whole (`Delivery.MemberReceivesLogSegment`,
  `Delivery.NonMemberReceivesNothing`, `Announcements.RosterIsMembers`).
- So the list of the web client can lack a message for good even if the client was
  subscribed before everything else (`LiveView.PassedByIsMissing`,
  `LiveView.MissedForGood`); it can show a message of the channel the client came
  from, because the hook does not look at the channel of a live message
  (`LiveView.StrayIsShown`); it can have a gap until the stream has caught up with
  the pages (`LiveView.LaggingStreamShowsGap`); and two messages of one moment can
  be shown the wrong way round (`LiveView.EqualTimesAreSwapped`,
  `LiveView.OvertakenIsSwapped`). It is a stretch of the log exactly under the
  condition of `LiveView.ViewIsLogSegmentIff`, and is one for whole requests
  (`LiveDelivery.ServedViewIsLog`).
- A sweep collects its sessions first and does not look at their heartbeats again
  (`Races.LateHeartbeatIsIgnored`). It ends exactly the sessions it collected that
  are still live when their turn comes (`Sweeping.SweepEndsSessionIff`).
- A sweep announces no member counts, so a subscriber of the channel list is shown
  too many members (`ListAgreement.SweptMemberIsCounted`), exactly in the channels
  that are stale for it (`ListAgreement.RunKeepsAgreement`,
  `ListAgreement.StaleOnlyByExpiry`).
- Concurrent count events can overtake each other
  (`SnapshotProtocol.CountsCanOvertake`). The count shown is the one written last,
  and so the right one of two exactly if that was written last
  (`SnapshotProtocol.ShownCountIff`); ids and names are right in any case
  (`SnapshotProtocol.NoChannelMissed`).
- Registering a writer for a client that has one leaves the old entry armed for
  ever (`WriterProtocol.SecondRegistrationReplaces`), which happens to exactly the
  entries that are pushed out in this way (`WriterProtocol.AbandonedIffReplaced`, and
  `ListRounds.ErasedIsSilenced` for the channel list), so writer safety is stated per
  entry.
- A refused subscription ends an earlier one of the same client
  (`Runs.RefusedSubscriptionEndsEarlierOne`, `Answers.SubscribedIffMember`).

## Model

| member | source | states |
|---|---|---|
| SnapshotProtocol.NoChannelMissed | server/src/adapter/grpc/channel_list_publisher.cpp:33-94 | In every lock-granular interleaving of any number of creating, registering, unregistering and publishing threads: whenever no creation is in progress, the store folded from the stream of a registered entry has exactly the ids and names of the repository |
| SnapshotProtocol.FirstEventIsSnapshot | server/src/adapter/grpc/channel_list_publisher.cpp:39-51 | In every such run and for every writer entry ever made, the first event of its stream is a snapshot and no later one is |
| SnapshotProtocol.RunKeepsInv | server/src/adapter/grpc/channel_list_publisher.cpp:33-120 | The protocol invariant holds in every reachable state: the map lock has one holder, mapped entries are armed and unshared, nothing a stream or a thread says of a channel is false, and every channel a stream does not show is still owed to it by some thread |
| SnapshotProtocol.StepKeepsInv | server/src/adapter/grpc/channel_list_publisher.cpp:33-120 | Each single lock-protected section keeps that invariant |
| SnapshotProtocol.StillCovered | server/src/adapter/grpc/channel_list_publisher.cpp:72-94 | A channel that a mapped stream shows, or is owed, is after any step of any thread still shown or still owed |
| SnapshotProtocol.StillUnannounced | server/src/adapter/grpc/channel_list_publisher.cpp:39-46 | While a registration holds the map lock, a channel missing from its snapshot stays unannounced, so its event will still reach the new entry |
| SnapshotProtocol.CountsCanOvertake | server/src/adapter/grpc/channel_list_publisher.cpp:96-120 | Why counts are left out of the above: any run with a registered subscriber goes on to one in which two changes of a channel reach it in the wrong order, so that it is left with the number of the first and nothing more is to come from either |
| SnapshotProtocol.ShownCountIff | server/src/adapter/grpc/channel_list_publisher.cpp:96-120 | The exact condition, in every run: if two threads are to tell a subscriber the counts m and n of a channel it knows, its entry stays armed and nothing else about the channel is written to it, then each writes exactly once, and when both have, the count shown is n if and only if n was written last or m equals n |
| SnapshotProtocol.LastCountIsShown | server/src/adapter/grpc/channel_list_publisher.cpp:96-120 | In every run the count that a subscriber is shown of a channel is the one written to it last, as long as its entry is armed and nothing else about the channel is written to it |
| ListRounds.SilentAfterDisarm | server/src/adapter/grpc/channel_list_publisher.cpp:54-70 | In every run, once an unregister call has disarmed its entry the stream of that entry never grows again, whoever had collected the entry before |
| ListRounds.ErasedIsSilenced | server/src/adapter/grpc/channel_list_publisher.cpp:38-70 | An entry that leaves the map leaves it by an unregister call or by another registration of its client; in the first case its stream has ended or the thread of that call is about to disarm it, at every later moment; in the second, and only then, it stays armed for ever with nobody about to disarm it |
| ListRounds.EachIsServedOnce | server/src/adapter/grpc/channel_list_publisher.cpp:72-120 | In every run, when the publish of a creation or a count is over, the thread has turned exactly once to each entry that was mapped when it collected and to no other, has appended its event exactly once or found the entry disarmed, and has changed no stream in any other way |
| ListRounds.NeverStuck | server/src/adapter/grpc/channel_list_publisher.cpp:33-120 | In every reachable state a call that is not over can take its next step unless it needs the lock of the map while a registration of another thread holds it, and then that thread can take its next step |
| WriterProtocol.OneWriteInFlight | server/src/adapter/grpc/client_publisher.cpp:77-80 | In every interleaving two threads never have a Write to the same entry in flight at once |
| WriterProtocol.PublishesCanOvertake | server/src/adapter/grpc/client_publisher.cpp:63-81 | Any run with a subscriber goes on to one in which two publishers have looked it up one after the other and the second is the first to write to it |
| WriterProtocol.SilentAfterReturn | server/src/adapter/grpc/client_publisher.cpp:44-61 | Once the unregister call that erased an entry has returned, no Write to that entry is in flight and its stream never grows again |
| WriterProtocol.ErasedNeverMappedAgain | server/src/adapter/grpc/client_publisher.cpp:41-53 | An entry that leaves the map, erased or replaced, is in no later state of the run in the map again |
| WriterProtocol.NeverBack | server/src/adapter/grpc/client_publisher.cpp:41-60 | Over any stretch of a run a disarmed entry stays disarmed and an entry that is gone stays gone |
| WriterProtocol.ReplacedNeverDisarmed | server/src/adapter/grpc/client_publisher.cpp:35-51 | The limit of the above: an entry that a second registration of its client pushes out of the map stays armed for ever, because no unregister call can find it; hence the promise is made per entry, not per client |
| WriterProtocol.AbandonedIffReplaced | server/src/adapter/grpc/client_publisher.cpp:35-61 | An entry that has left the map is in every later state armed with nobody about to disarm it if and only if a registration pushed it out; one that an unregister call erased is disarmed or about to be |
| WriterProtocol.SecondRegistrationReplaces | server/src/adapter/grpc/client_publisher.cpp:35-42 | A run of four steps in which a second registration of one client pushes its first entry out, armed for ever |
| WriterProtocol.RunKeepsInv | server/src/adapter/grpc/client_publisher.cpp:35-137 | Every reachable state: an entry lock is held by exactly the thread inside its section, a Write is in flight only on an armed entry, and an entry being disarmed is out of the map for good |
| WriterProtocol.StepKeepsInv | server/src/adapter/grpc/client_publisher.cpp:35-137 | Each single step keeps that invariant |
| ChatRounds.EachIsServedOnce | server/src/adapter/grpc/client_publisher.cpp:63-138 | In every run, when a publish or broadcast has returned: it took the lock of each entry that was mapped for one of its recipients when it collected, exactly once, and of no other; each time it appended the event exactly once or found the entry disarmed; and it changed no stream in any other way |
| ChatRounds.NeverStuck | server/src/adapter/grpc/client_publisher.cpp:44-138 | In every reachable state a call that is not over can take its next step unless every entry lock that would do is held by other threads, and then one of those can take its next step |
| LockOrder.SectionIsWellRanked | server/src/adapter/grpc/client_publisher.cpp:63-81 | Every lock-taking function of the stores and publishers requests a lock only while all the locks it holds have a lower rank, and gives every lock back |
| LockOrder.RequestIsWellRanked | server/src/application/usecase/join_channel.cpp:64-101 | A use case, being a sequence of such calls of any length, keeps that discipline |
| LockOrder.SomeoneCanStep | server/src/adapter/grpc/channel_list_publisher.cpp:39-51 | In every reachable state the chain of waiting that starts at an unfinished thread climbs in rank and ends at a thread that can move, even if a reader waits for every waiting writer |
| LockOrder.NoDeadlock | server/src/adapter/grpc/channel_list_publisher.cpp:39-51 | For any number of threads, any requests and any schedule: some thread is unfinished if and only if some thread can take its next step |
| LockOrder.RunKeepsInv | server/src/adapter/grpc/client_publisher.cpp:63-81 | Exclusive locks exclude and all threads keep the rank order in every reachable state |
| LockOrder.RunsAreBounded | server/src/adapter/grpc/client_publisher.cpp:102-108 | Whatever the schedule, the steps made and the operations left always add up to the operations of all programs |
| LockOrder.StuckMeansFinished | server/src/adapter/grpc/client_publisher.cpp:102-108 | A run that cannot go on has finished all threads, with every lock given back |
| Interleaving.RunKeepsInv | server/src/adapter/persistence/in_memory_channel_repository.cpp:50-69 | In every interleaving of the lock-protected sections of all requests, arriving at any time, both name indexes are exact inverses and every stale channel copy held by a task still has the stored id and name |
| Interleaving.StepKeepsInv | server/src/adapter/persistence/in_memory_client_registry.cpp:51-116 | Each section keeps that invariant, loses or renames no channel, reuses no client id and moves no heartbeat backwards |
| Interleaving.IndexesStayExact | server/src/adapter/persistence/in_memory_channel_repository.cpp:50-69 | In every reachable state a name leads to an id exactly when the channel with that id bears the name, and likewise for usernames and live sessions |
| Interleaving.ChannelsStay | server/src/adapter/persistence/in_memory_channel_repository.cpp:50-55 | Between any two states of a run no channel is deleted or renamed, although copies read long before are written back |
| Interleaving.HeartbeatsNeverGoBack | server/src/adapter/persistence/in_memory_client_registry.cpp:86-94 | Between any two states of a run a client stays on record, is live later only if it was live all along, and its last heartbeat is then no earlier |
| Races.BothAreMembersIff | server/src/application/usecase/join_channel.cpp:64-92 | Two joins of one channel by clients in any other channels, the channel with any members, under every complete schedule of their sections: both succeed, both sessions list the channel and no other session changes there; the members are the old ones and both clients if and only if one of them was a member before or one task read the channel after the other had saved it, and otherwise one of the two is missing |
| Races.LinkSurvivesIff | server/src/application/usecase/join_channel.cpp:64-92 | So, if member set and sessions agreed on the channel entered before, they agree on it at the end exactly on that condition |
| JoinRaces.AllLinksSurviveIff | server/src/application/usecase/join_channel.cpp:33-101 | The same for all channels and both indexes: after two joins of one channel the two sides of membership agree everywhere if and only if in the channel entered one client was a member before or the tasks copied it in turn, and the tasks copied in turn every other channel that both clients were in; nobody is in two channels if nobody was |
| JoinRaces.LeftInStepIff | server/src/application/usecase/join_channel.cpp:33-62 | A channel that two joining clients leave: neither session lists it afterwards, no other session changes there, and the two sides agree on it unless both were members and took themselves out of the same copy |
| JoinRaces.FirstStaysBehind | server/src/application/usecase/join_channel.cpp:33-101 | A complete schedule on which it fails: two clients of one channel join an empty one, both are answered with success and list only the new channel, and yet the first is still a member of the channel it left and not of the new one |
| Races.FirstJoinIsLost | server/src/application/usecase/join_channel.cpp:64-92 | A schedule on which the condition fails: two overlapping joins of an empty channel, both answered with success, after which only the second client is a member although the first session lists the channel |
| Races.NewMemberGetsMessageIff | server/src/application/usecase/send_message.cpp:34-61 | A message of a member and a join of its channel, under every complete schedule: the message is saved, the client becomes a member, and it is among those the message goes to if and only if it was a member before or the sender read the channel after the join had saved it; everybody else is a recipient as before |
| Races.NewMemberIsPassedBy | server/src/application/usecase/send_message.cpp:38-60 | A schedule on which that fails: the join is over before the message is saved, and yet the message does not go to the new member |
| Departures.DepartedGetsMessageIff | server/src/application/usecase/send_message.cpp:38-61 | A message of a member and a departure of another member, by a leave or a join of any other channel, under every complete schedule: the message is saved, the client is out of the channel on both sides, and it is among those the message goes to if and only if the sender did not read the channel after the departure had been saved; everybody else is a recipient as before |
| Departures.MessageFollowsDeparted | server/src/application/usecase/send_message.cpp:38-61 | A schedule on which the message follows the client: it is a member of another channel and no longer of this one before the message is saved, and the message goes to it |
| Races.LateHeartbeatIsIgnored | server/src/application/usecase/expire_inactive_clients.cpp:27-42 | A concrete interleaving in which a heartbeat is answered with success and lies past the deadline, and the sweep that collected the session before it removes the client all the same |
| Sweeping.SweepEndsSessionIff | server/src/application/usecase/expire_inactive_clients.cpp:26-54 | In every interleaving of the sections of all requests, a sweep ends a session if and only if its last heartbeat was before the deadline when the sessions were collected and it is still live when its own removal comes, whatever heartbeats were accepted in between |
| Sweeping.EachCollectedRemovedOnce | server/src/application/usecase/expire_inactive_clients.cpp:26-54 | A sweep that is over has run exactly one removal for each session it collected and none for any other, however other requests were interleaved |
| Atomicity.DisjointNeedsAreAtomic | server/src/application/usecase/join_channel.cpp:33-148 | Requests of which no two need the same client, username, channel or channel name: every complete interleaving of their sections, with every order of the loops, ends with the stores and the answers of the whole use cases run one after another, in whichever order |
| Atomicity.DisjointNeedsKeepLinks | server/src/application/usecase/join_channel.cpp:33-148 | At the end of every such interleaving the two sides of membership agree, both indexes are exact and nobody is in two channels, if so it was at the start and the generated ids are new |
| Atomicity.AtomicKeepsLinks | server/src/application/usecase/join_channel.cpp:33-148 | Each of the nine requests, as one step and in any order of its loops, keeps the two sides of membership in agreement and everybody in at most one channel |
| Atomicity.SeparateRequestsAreAtomic | server/src/application/usecase/join_channel.cpp:33-148 | The same for any closed, pairwise disjoint footprints given in advance |
| Atomicity.TaskIsUseCase | server/src/application/usecase/join_channel.cpp:33-148 | The section-by-section form of each of the nine requests, uninterrupted, ends in finitely many sections with the stores and the answer of its whole-step form |
| Atomicity.SerialSchedule | server/src/application/usecase/join_channel.cpp:33-148 | For every order of the requests there is a schedule that runs them one by one |
| Independence.ScheduleDoesNotMatter | server/src/adapter/persistence/in_memory_channel_repository.cpp:50-69 | Two complete schedules of tasks with disjoint footprints end with equal stores and equal answers |
| Independence.EachAsIfAlone | server/src/adapter/persistence/in_memory_client_registry.cpp:51-116 | Seen through its own footprint, each task of any schedule has at every moment done exactly what it would have done alone in as many turns |
| Independence.UntouchedElsewhere | server/src/adapter/persistence/in_memory_channel_repository.cpp:50-69 | What lies in nobody's footprint is the same after any schedule |
| Independence.StepTogether | server/src/adapter/persistence/in_memory_client_registry.cpp:51-116 | One section of a task gives the same reply and the same change inside its footprint whatever the rest of the stores holds, and changes nothing outside it |
| Runs.RunKeepsInv | server/src/application/usecase/join_channel.cpp:33-101 | In every state of every run of whole requests and sweeps: a client is in a channel's member set exactly when a live session lists the channel, listed channels exist, both name indexes are exact, and no session is in two channels |
| Runs.StepKeepsInv | server/src/adapter/grpc/broadcast_service_impl.cpp:78-106 | Each request of every kind, disconnects and sweeps included, keeps that invariant |
| Runs.StoresAfter | server/src/application/usecase/join_channel.cpp:33-101 | The stores after a join, leave, disconnect or sweep in closed form, both sides of membership changed at once, independent of the order of any loop |
| Runs.CallsAfter | server/src/application/usecase/join_channel.cpp:94-99 | The events published by each request in closed form, all computed from the state before it: joins, leaves, disconnects, sweeps, creations, which announce the new channel exactly if the client is live and the name valid and free, and sends, which publish exactly if the sender is a live member and the content valid; none where a request is refused |
| Runs.ErrorChangesNothing | server/src/application/usecase/leave_channel.cpp:27-41 | A request answered with an error, a refused watch of the channel list included, leaves repository, registry, buffers and all event streams as they were; the one exception is a refused subscription to a channel, see Runs.RefusedSubscriptionEndsEarlierOne |
| Runs.JoinByNameIsJoin | server/src/application/usecase/join_channel.cpp:103-148 | Joining by name equals looking the name up and joining by id, in state, events and answer |
| Runs.JoinTwice | server/src/application/usecase/join_channel.cpp:79-100 | A second join of the same channel succeeds and changes neither store nor stream |
| Runs.RefusedSubscriptionEndsEarlierOne | server/src/adapter/grpc/broadcast_service_impl.cpp:266-271 | A client that is no member of the channel is refused, and that does have an effect: it unregisters an earlier subscription of the same client, and leaves the writers as they were exactly if there was none |
| Membership.JoinEffect | server/src/application/usecase/join_channel.cpp:64-101 | Whatever the order of the loop over other channels, a join leaves the client in the target only, on both sides; the copy of the target read before the loop is still current when it is written back |
| Membership.LeaveOtherChannelsEffect | server/src/application/usecase/join_channel.cpp:33-62 | The loop cuts the client off from exactly the listed channels, and announces each departure and count as if it were the only one |
| Membership.LeaveEffect | server/src/application/usecase/leave_channel.cpp:27-49 | A member is cut off on both sides and the rest are told; anyone else is refused with the error of the first failing check and nothing happens |
| Membership.RemoveMemberEffect | server/src/application/usecase/internal/remove_member_broadcast.cpp:14-32 | Removal takes one client out of one channel; the farewell goes to the remaining members, never to the leaver |
| Membership.JoinAgain | server/src/application/usecase/join_channel.cpp:79-100 | A client that is in the target only can join it again without any change or event |
| Expiry.SweepIsOrderIndependent | server/src/application/usecase/expire_inactive_clients.cpp:26-54 | For all orders of both loops the sweep deletes exactly the sessions with a heartbeat before the deadline from registry, username index and all member sets, and counts them |
| Expiry.SweepIsDisconnectEach | server/src/application/usecase/expire_inactive_clients.cpp:26-54 | The state after a sweep is the state after disconnecting the same clients one by one |
| Expiry.FarewellsReachTheRest | server/src/application/usecase/internal/remove_member_broadcast.cpp:28-30 | Each farewell of a sweep comes from one of its sessions about a channel that session was in, and goes to the channel's members minus everybody removed so far, the leaver included |
| Expiry.SweepEffect | server/src/application/usecase/expire_inactive_clients.cpp:26-54 | State and calls of a sweep over any list of different live sessions, from the state before it |
| Expiry.DisconnectEffect | server/src/adapter/grpc/broadcast_service_impl.cpp:78-106 | A disconnect succeeds exactly for live clients, and then drops the client everywhere after announcing each departure |
| ListAgreement.RunKeepsAgreement | server/src/adapter/grpc/channel_list_publisher.cpp:72-120 | In every state of every run the store folded from any subscriber's stream has the repository's ids and names; the count it shows for a channel is the member count if and only if the channel is not stale for that subscriber, and too high if it is |
| ListAgreement.StaleOnlyByExpiry | server/src/application/usecase/expire_inactive_clients.cpp:29-52 | What is stale for a subscriber after one request, exactly: a sweep adds the channels it removes somebody from, a join, leave or disconnect takes away those it counts again, a new snapshot clears all, and nothing else changes it |
| ListAgreement.TooHighAfterSweep | server/src/application/usecase/expire_inactive_clients.cpp:29-52 | After a sweep every subscriber is shown too many members of each channel that lost somebody |
| ListAgreement.SweptMemberIsCounted | server/src/application/usecase/expire_inactive_clients.cpp:29-52 | A run of four requests, for any server and any valid username, at whose end the list counts a member of a channel that has none |
| ListAgreement.RequestAgrees | server/src/application/usecase/join_channel.cpp:56-59 | One request keeps a store in agreement with the repository, event by event |
| ListAgreement.StreamsFollowCalls | server/src/adapter/grpc/channel_list_publisher.cpp:96-120 | Every subscriber's store moves exactly with the calls made to the publisher |
| ListAgreement.SnapshotAgrees | server/src/adapter/grpc/channel_list_publisher.cpp:42-51 | A new subscriber's store is exact from its first event on |
| ChannelsStore.SnapshotHoldsRepo | client-web/src/stores/channels-store.ts:28-34 | Applying a snapshot shows exactly the listed repository, in whatever order it was listed and whatever was shown before |
| ChannelsStore.ByIdHoldsList | client-web/src/stores/channels-store.ts:29-32 | The map filled from a list has exactly the ids of the list |
| ChannelsStore.ChannelsStoreState.ApplySnapshot | client-web/src/stores/channels-store.ts:28-34 | The filling loop computes the fold of a snapshot event |
| ChannelsStore.ChannelsStoreState.ApplyCreated | client-web/src/stores/channels-store.ts:35-38 | Computes the fold of a creation event |
| ChannelsStore.ChannelsStoreState.ApplyMemberCountChanged | client-web/src/stores/channels-store.ts:39-49 | Computes the fold of a count event; unknown channels are ignored |
| Delivery.MemberReceivesLogSegment | server/src/application/usecase/send_message.cpp:30-63 | Over any stretch of a run during which a client stays a member and keeps its writer, the messages added to its stream are exactly the part of the channel's log sent meanwhile, once each and in order, its own included |
| Delivery.NonMemberReceivesNothing | server/src/application/usecase/send_message.cpp:58-61 | In runs of whole requests, over any stretch during which a subscribed client is not in a channel, no message of that channel reaches it; for overlapping requests see Departures.DepartedGetsMessageIff |
| Delivery.StepDelivers | server/src/application/usecase/send_message.cpp:54-61 | What one request adds to a subscriber's messages: the message it saves if the subscriber is in its channel, and otherwise nothing |
| Delivery.PublishReachesRecipients | server/src/adapter/grpc/client_publisher.cpp:63-81 | Publishing to a list of different clients reaches each subscribed one once and nobody else, whatever the order |
| Delivery.AnnouncementsCarryNoMessage | server/src/adapter/grpc/client_publisher.cpp:83-138 | Joins, farewells and closed streams add no message |
| Announcements.RosterIsMembers | server/src/application/usecase/join_channel.cpp:94-96 | Over any stretch of a run during which a client keeps its writer and is in a channel after each request: applying the joins and departures of its stream, in order, to the member set at the start gives the member set at the end |
| Announcements.HearsChanges | server/src/application/usecase/internal/remove_member_broadcast.cpp:28-30 | What any one request, sweeps included, adds to the announcements of a client that stays subscribed, from the member sets before and after: one join or departure for each change of the channel the client is in afterwards, under the registered name, and nothing else; nothing at all if it is in none |
| Announcements.WritersAfter | server/src/adapter/grpc/broadcast_service_impl.cpp:255-278 | Who is subscribed after each request, from the state before it: a subscription replaces the writer of a member and takes that of anyone else away, the end of a stream, a disconnect and a sweep take away the writers of those concerned, and nothing else changes |
| Answers.SubscribedIffMember | server/src/application/usecase/subscribe_to_channel.cpp:17-27 | A subscription is accepted if and only if the client is a member of the channel, and is refused with ChannelNotFound or NotAMember as the channel is missing or not; afterwards the client is subscribed if and only if it was a member, through the new writer with an empty stream, and everybody else as before |
| Answers.SubscribersAreLive | server/src/application/usecase/expire_inactive_clients.cpp:42-48 | In every state of every run whoever is subscribed to channel events has a live session |
| Answers.MessagesAreNamed | server/src/adapter/grpc/client_publisher.cpp:63-81 | In every run every message in any stream has been saved and goes under the username with which its sender was registered when it was live |
| Answers.AnswerIs | server/src/application/usecase/join_channel.cpp:64-101 | The answer of every kind of request, by who is live, what exists, which names are taken and who is a member where: accepted, or refused with the error of the first check that fails |
| Answers.ConnectedUnder | server/src/adapter/grpc/broadcast_service_impl.cpp:62-76 | The id that a connect answers with is that of a session that was not live before and is now, under the trimmed username, in no channel and with the given heartbeat; nobody else changes |
| Answers.CreatedUnder | server/src/application/usecase/create_channel.cpp:26-45 | The id that a creation answers with is that of a channel that did not exist before and does now, under the trimmed name and without members; no other channel changes |
| Answers.SentIsNewest | server/src/application/usecase/send_message.cpp:46-62 | The id that a send answers with is that of the newest message of the channel, which has the sender, the accepted content and the time of the request; no other channel changes |
| Answers.SweptIffSilent | server/src/application/usecase/expire_inactive_clients.cpp:26-54 | In every run of whole requests a sweep ends the session of a live client if and only if its connect or latest heartbeat lies before the deadline |
| Answers.HeartbeatIsLastSign | server/src/adapter/persistence/in_memory_client_registry.cpp:86-94 | In every state of every run the heartbeat on record of a live client is the time of its connect or of the latest heartbeat it sent since |
| Runs.BufferedSenderHasName | server/src/adapter/persistence/in_memory_client_registry.cpp:41-84 | In every run, for every message in any buffer, looking its sender up gives the name it was registered under when live, even after disconnect, expiry or reuse of that name by another client |
| Runs.NamesStay | server/src/adapter/persistence/in_memory_client_registry.cpp:75-84 | The name under which a client was once live stays on record in every later state |
| Runs.RunKeepsHistory | server/src/adapter/persistence/in_memory_message_repository.cpp:19-27 | In every run the store is what saving the whole send history leaves, message ids are distinct and all senders are on record |
| Runs.MessagesAfter | server/src/application/usecase/send_message.cpp:34-56 | A request saves one message or none, and only from a live sender that is a member of the channel |
| MessageRepository.RingBufferKeepsTail | server/src/adapter/persistence/in_memory_message_repository.cpp:16-27 | After any saves to any channels each buffer is the last min(n, cap) of its channel's n messages, cap 0 meaning 200 |
| MessageRepository.RecentSlicesLog | server/src/adapter/persistence/in_memory_message_repository.cpp:29-40 | Reading the newest messages slices the unbounded log |
| MessageRepository.ListBeforeSlicesLog | server/src/adapter/persistence/in_memory_message_repository.cpp:42-60 | Reading before a cursor slices the unbounded log while the cursor is retained, and gives nothing once it is evicted |
| MessageRepository.SaveKeepsTail | server/src/adapter/persistence/in_memory_message_repository.cpp:19-27 | One save keeps every channel's buffer the tail of its log |
| MessageRepository.InMemoryMessageRepository.constructor | server/src/adapter/persistence/in_memory_message_repository.cpp:16-17 | An empty store with the effective capacity |
| MessageRepository.InMemoryMessageRepository.Save | server/src/adapter/persistence/in_memory_message_repository.cpp:19-27 | Append, then evict from the front in a loop: leaves the last cap messages of that channel, other channels alone |
| MessageRepository.InMemoryMessageRepository.Recent | server/src/adapter/persistence/in_memory_message_repository.cpp:29-40 | Returns the specified slice |
| MessageRepository.InMemoryMessageRepository.ListBefore | server/src/adapter/persistence/in_memory_message_repository.cpp:42-60 | Returns the specified slice |
| ListMessages.WalkReturnsBuffer | server/src/application/usecase/list_messages.cpp:34-40 | On an unchanging buffer, following pages until has_more is false ends, returns every message once and in order, in exactly the number of pages needed |
| ListMessages.WalkFrom | server/src/application/usecase/list_messages.cpp:34-40 | The same from any buffered position |
| ListMessages.PagesNeededIsCeiling | server/src/application/usecase/list_messages.cpp:34-34 | The number of pages is n divided by the page size, rounded up |
| ListMessages.HasMoreIff | server/src/application/usecase/list_messages.cpp:38-39 | has_more exactly when the page is not empty and something older is buffered |
| ListMessages.PageIsSlice | server/src/application/usecase/list_messages.cpp:34-40 | Every page is a slice of the buffer that ends at the cursor and is as long as limit, cap and buffer allow |
| ListMessages.PagesAreOneSegment | server/src/application/usecase/list_messages.cpp:34-40 | For any interleaving of saves, evictions and page fetches that follow the previous page's first id, the pages joined oldest first are one contiguous segment of the whole send log |
| ListMessages.HasMoreLater | server/src/application/usecase/list_messages.cpp:38-39 | has_more computed on any later state: true exactly when the log position before the page's first message is still retained |
| HistoryPaging.AllPagesAreTheBuffer | client-web/src/hooks/use-channel-messages.ts:91-111 | For every run of the message view in which, from a first page on, nothing more is saved and the drain has not run: an older page can be loaded exactly while fewer pages are loaded than the buffer fills, and when none can be loaded any more the pages, oldest first, are the buffer |
| HistoryPaging.NoOlderPageIff | client-web/src/hooks/use-channel-messages.ts:107-110 | In every reachable state after a page answer: an older page can be loaded if and only if the latest answer was not empty and began after the first message still buffered when its has_more was worked out |
| ListMessages.OnlyMembersRead | server/src/application/usecase/list_messages.cpp:26-32 | A page is handed out exactly to members of an existing channel, everybody else is refused with ChannelNotFound or NotAMember, and the page depends on that channel's buffer only |
| ListMessages.ListMessagesUseCase.Run | server/src/application/usecase/list_messages.cpp:23-41 | Answers with the specified page or error |
| LiveView.ViewIsLogSegmentIff | client-web/src/hooks/use-channel-messages.ts:119-209 | End to end, for every order of saves, deliveries, strays, pages and drain: the list is a stretch of the send log if and only if nothing is missing (everything between the pages and a message of the log that came live came live too), nothing is foreign (no message of another channel has come live) and nothing is out of place (of two shown messages the later has the later time, or the same time and the later place on the pages) |
| LiveView.GapFreeIff | client-web/src/hooks/use-channel-messages.ts:145-171 | The positions of the log that are shown are one segment if and only if everything between the pages and each live message of the log came live, or, without pages, everything between two such messages |
| LiveView.ShownIsTheSegmentIff | client-web/src/hooks/use-channel-messages.ts:191-209 | A stretch of the log that is covered is shown as the log has it if and only if no message of another channel has come live, times never go back in it and no two messages of one moment are placed the wrong way round by page or live arrival |
| LiveView.GapsWerePassedBy | client-web/src/hooks/use-channel-messages.ts:145-171 | Once every message above the pages has come or passed the client by, there is a gap exactly if one that passed it by was followed by one that came |
| LiveView.MissedForGood | server/src/application/usecase/send_message.cpp:38-60 | A message newer than the first page whose sending is over without having reached the client is in no later list, whatever is delivered or loaded |
| LiveView.PassedByIsMissing | server/src/application/usecase/send_message.cpp:38-60 | A run for any two messages, subscribed before the first page and before either is saved, in which the list shows the second only |
| LiveView.StrayIsShown | client-web/src/hooks/use-channel-messages.ts:148-171 | A run for any message of another channel, saved after this channel was subscribed, loaded and drained: nothing is missing or out of place, and the list shows that message although the log is empty |
| LiveView.OvertakenIsSwapped | server/src/application/usecase/send_message.cpp:53-61 | A run for any two messages of one moment in which the one saved later is delivered first and the list has them the wrong way round |
| LiveView.InOrderGapFreeIff | client-web/src/hooks/use-channel-messages.ts:145-171 | When the stream delivers the log in order: no gap if and only if nothing has come live yet, no page showed anything, or the stream began no later than the first page ends and has reached the oldest page |
| LiveView.ViewIsLogSegment | client-web/src/hooks/use-channel-messages.ts:119-209 | Then, with increasing times, the list is the log from the oldest page or first live message to the last message delivered or loaded |
| LiveDelivery.ServedInOrder | client-web/src/hooks/use-channel-messages.ts:145-171 | A client that stays a member and keeps its writer while requests run as a whole, and has received any part of its stream in order, has received the log in order from the position at which that began, and nothing foreign |
| LiveDelivery.ServedViewIsLog | client-web/src/hooks/use-channel-messages.ts:119-209 | So for whole requests, end to end from the server run to the list: if page and stream meet and times increase, the list is the log from the oldest page or first message sent to it to the last message received or loaded |
| LiveDelivery.FollowedIsSent | client-web/src/hooks/use-channel-messages.ts:145-171 | Every such stretch of a run of whole requests is a run of the live view in which exactly what the stream was sent has come |
| LiveView.StillMeets | client-web/src/hooks/use-channel-messages.ts:145-171 | Once page and stream meet they do so after every event |
| LiveView.LaggingStreamShowsGap | client-web/src/hooks/use-channel-messages.ts:145-171 | A run with delivery in order, subscribed before the first page, in which the list shows the first and third of three messages but not the second |
| LiveView.EqualTimesAreSwapped | client-web/src/hooks/use-channel-messages.ts:208-208 | A run in which two messages of one moment, the whole log, are loaded on a page each and shown in the wrong order |
| LiveHistory.ShownIsCovered | client-web/src/hooks/use-channel-messages.ts:191-209 | In every run, with messages delivered in any order or not at all, the list has distinct ids, is sorted by time, and holds exactly the messages on loaded pages or delivered live and those of other channels that came live |
| LiveHistory.InjectKeepsCursor | client-web/src/hooks/use-channel-messages.ts:54-62 | A live message moves the cursor of the next older page exactly if the only page is empty and claims there is more; never for pages the server produces |
| LiveHistory.RunKeepsInv | client-web/src/hooks/use-channel-messages.ts:119-171 | In every run, overlapping sends and messages of other channels included: pages and live part hold exactly the covered log positions and the strays, kept-back messages are exactly those delivered before the drain in the order of their arrival, the cursor is the first id of the oldest page, and no empty page says there is more |
| LiveHistory.FirstAnswer | server/src/application/usecase/list_messages.cpp:34-40 | The newest page, computed on any earlier state of the buffers, ends the log of that moment |
| LiveHistory.OlderAnswer | server/src/application/usecase/list_messages.cpp:34-40 | An older page ends just before its cursor in the final log, or is empty once the cursor is evicted |
| MessageView.StableSortSorts | client-web/src/hooks/use-channel-messages.ts:208-208 | The sort orders by time, loses and repeats nothing, and keeps the order of equal times |
| MessageView.StableSortIff | client-web/src/hooks/use-channel-messages.ts:208-208 | A list is what the sort makes of another if and only if it is sorted by time and has the messages of each moment in the same order |
| MessageView.SortedAsIff | client-web/src/hooks/use-channel-messages.ts:208-208 | For lists of the same different messages this means: of any two, the earlier one in the result has the earlier time, or the same time and came first |
| MessageView.ChannelMessages.Messages | client-web/src/hooks/use-channel-messages.ts:191-209 | The nested loops over pages compute the deduplicated, sorted list |
| MessageView.ChannelMessages.Inject | client-web/src/hooks/use-channel-messages.ts:39-65 | Computes the injection of one live message into the cache |
| MessageView.ChannelMessages.Live | client-web/src/hooks/use-channel-messages.ts:166-170 | Injects once the first page has been drained into, keeps back before |
| MessageView.ChannelMessages.DrainPending | client-web/src/hooks/use-channel-messages.ts:122-131 | The loop injects all kept-back messages in order, once |
| MessageView.ChannelMessages.Reset | client-web/src/hooks/use-channel-messages.ts:133-136 | Entering a channel forgets what was kept back and leaves the cache |
| MessageView.ChannelMessages.constructor | client-web/src/hooks/use-channel-messages.ts:119-120 | Nothing cached, kept back or drained |
| ChannelRepository.SaveKeepsIndexExact | server/src/adapter/persistence/in_memory_channel_repository.cpp:50-55 | A save keeps the name index exact if and only if the copy bears the stored name of its id, or both its id and its name are new |
| ChannelRepository.CreateKeepsIndexExact | server/src/adapter/persistence/in_memory_channel_repository.cpp:57-69 | Creation keeps the index exact and every old channel, succeeds exactly for a free name, and the new channel is found under it |
| ChannelRepository.FindByNameIsFindById | server/src/adapter/persistence/in_memory_channel_repository.cpp:16-38 | A name finds a channel exactly when the channel with that id bears it, and finds the same copy |
| ChannelRepository.InMemoryChannelRepository.constructor | server/include/bcmd/server/adapter/persistence/in_memory_channel_repository.hpp:25-27 | An empty repository |
| ChannelRepository.InMemoryChannelRepository.FindById | server/src/adapter/persistence/in_memory_channel_repository.cpp:16-24 | Answers from the id map |
| ChannelRepository.InMemoryChannelRepository.FindByName | server/src/adapter/persistence/in_memory_channel_repository.cpp:26-38 | Answers through the index and the id map |
| ChannelRepository.InMemoryChannelRepository.ListAll | server/src/adapter/persistence/in_memory_channel_repository.cpp:40-48 | Lists every channel exactly once, in some order |
| ChannelRepository.InMemoryChannelRepository.Save | server/src/adapter/persistence/in_memory_channel_repository.cpp:50-55 | Both maps after a save |
| ChannelRepository.InMemoryChannelRepository.Create | server/src/adapter/persistence/in_memory_channel_repository.cpp:57-69 | Both maps and the answer of a creation |
| ClientRegistry.RegisterKeepsIndexExact | server/src/adapter/persistence/in_memory_client_registry.cpp:51-65 | Registration keeps the three maps consistent, succeeds exactly for a free username, and the session is then found under it |
| ClientRegistry.RemoveKeepsIndexExact | server/src/adapter/persistence/in_memory_client_registry.cpp:75-84 | Removal frees the client's username and no other, and forgets no name on record |
| ClientRegistry.RegisterThenRemove | server/src/adapter/persistence/in_memory_client_registry.cpp:51-84 | Registering and removing restores the live maps; the name stays on record |
| ClientRegistry.InMemoryClientRegistry.constructor | server/include/bcmd/server/adapter/persistence/in_memory_client_registry.hpp:34-37 | An empty registry |
| ClientRegistry.InMemoryClientRegistry.FindById | server/src/adapter/persistence/in_memory_client_registry.cpp:17-25 | Answers from the id map |
| ClientRegistry.InMemoryClientRegistry.LookupUsername | server/src/adapter/persistence/in_memory_client_registry.cpp:41-49 | Answers from the names on record |
| ClientRegistry.InMemoryClientRegistry.RegisterClient | server/src/adapter/persistence/in_memory_client_registry.cpp:51-65 | All three maps and the answer of a registration |
| ClientRegistry.InMemoryClientRegistry.Remove | server/src/adapter/persistence/in_memory_client_registry.cpp:75-84 | All three maps and the answer of a removal |
| ClientRegistry.InMemoryClientRegistry.TouchHeartbeat | server/src/adapter/persistence/in_memory_client_registry.cpp:86-94 | Only the heartbeat of the one live session changes |
| ClientRegistry.InMemoryClientRegistry.JoinChannelAtomic | server/src/adapter/persistence/in_memory_client_registry.cpp:96-105 | Only the joined set of the one live session changes |
| ClientRegistry.InMemoryClientRegistry.LeaveChannelAtomic | server/src/adapter/persistence/in_memory_client_registry.cpp:107-116 | Only the joined set of the one live session changes |
| ClientRegistry.InMemoryClientRegistry.CollectExpired | server/src/adapter/persistence/in_memory_client_registry.cpp:118-128 | The collected copies are those of exactly the sessions with a heartbeat before the deadline, each once |
| DomainModel.Channel.AddMember | server/src/domain/model/channel.cpp:16-22 | Refuses a member and changes nothing then; afterwards the client is a member |
| DomainModel.Channel.RemoveMember | server/src/domain/model/channel.cpp:24-30 | Refuses a non-member and changes nothing then; afterwards the client is none |
| DomainModel.ClientSession.constructor | server/src/domain/model/client_session.cpp:11-15 | A session in no channel with a first heartbeat |
| DomainModel.ClientSession.Touch | server/src/domain/model/client_session.cpp:17-17 | Only the heartbeat changes |
| DomainModel.ClientSession.JoinChannel | server/src/domain/model/client_session.cpp:23-25 | Only the joined set changes |
| DomainModel.ClientSession.LeaveChannel | server/src/domain/model/client_session.cpp:27-29 | Only the joined set changes |
| Writers.DeliverToOne | server/include/bcmd/server/adapter/grpc/client_publisher.hpp:46-52 | A subscriber's stream grows by a delivered event once if it is a recipient and not at all otherwise |
| Writers.WriterTable.Register | server/src/adapter/grpc/client_publisher.cpp:35-42 | A fresh entry takes the client's place in the map, with a stream of its own |
| Writers.WriterTable.Unregister | server/src/adapter/grpc/client_publisher.cpp:44-61 | The client leaves the map and its erased entry is disarmed; no other entry changes |
| Writers.WriterTable.WriteTo | server/src/adapter/grpc/client_publisher.cpp:63-81 | The event reaches the one recipient if it is subscribed |
| Writers.WriterTable.Broadcast | server/src/adapter/grpc/client_publisher.cpp:92-108 | The collect and write loops deliver the event to exactly the subscribed recipients |
| Writers.WriterTable.CollectTargets | server/src/adapter/grpc/client_publisher.cpp:92-102 | Collects the entries of exactly the subscribed recipients, each once |
| ChatPublisher.GrpcClientPublisher.RegisterSubscriber | server/src/adapter/grpc/client_publisher.cpp:35-42 | The client's writer with an empty stream |
| ChatPublisher.GrpcClientPublisher.UnregisterSubscriber | server/src/adapter/grpc/client_publisher.cpp:44-61 | The client has no writer and its entry is disarmed |
| ChatPublisher.GrpcClientPublisher.Publish | server/src/adapter/grpc/client_publisher.cpp:63-81 | The message, with the sender's name on record, goes to the one recipient |
| ChatPublisher.GrpcClientPublisher.BroadcastMemberJoined | server/src/adapter/grpc/client_publisher.cpp:83-109 | A member-joined event with the channel, client and username goes to exactly the subscribed recipients |
| ChatPublisher.GrpcClientPublisher.BroadcastMemberLeft | server/src/adapter/grpc/client_publisher.cpp:111-138 | A member-left event with the channel, client and username goes to exactly the subscribed recipients |
| ListPublisher.GrpcChannelListPublisher.RegisterSubscriberWithSnapshot | server/src/adapter/grpc/channel_list_publisher.cpp:33-52 | The client's new stream begins with a snapshot that lists the whole repository |
| ListPublisher.GrpcChannelListPublisher.UnregisterSubscriber | server/src/adapter/grpc/channel_list_publisher.cpp:54-70 | The client has no writer and its entry is disarmed |
| ListPublisher.GrpcChannelListPublisher.PublishChannelCreated | server/src/adapter/grpc/channel_list_publisher.cpp:72-94 | The creation event goes to every subscriber once |
| ListPublisher.GrpcChannelListPublisher.PublishMemberCountChanged | server/src/adapter/grpc/channel_list_publisher.cpp:96-120 | The count event goes to every subscriber once |
| Server.ServerStepIsRunStep | server/src/adapter/grpc/broadcast_service_impl.cpp:38-60 | What the methods do to stores and streams, subscriptions and their ends included, is a step of the runs above, so all run theorems speak of them |
| Server.RecipientsFor | server/src/domain/service/message_router.cpp:11-27 | Lists the members, without the sender under the excluding policy, each once |
| Server.BroadcastServer.constructor | server/src/main.cpp:105-111 | The server starts with one seeded channel, nobody connected and no subscriber |
| Server.BroadcastServer.RemoveMemberAndBroadcast | server/src/application/usecase/internal/remove_member_broadcast.cpp:14-32 | Stores, streams and answer of a removal |
| Server.BroadcastServer.LeaveOtherChannels | server/src/application/usecase/join_channel.cpp:33-62 | The loop over the other channels, in the order in which the set is walked |
| Server.BroadcastServer.LeaveOne | server/src/application/usecase/join_channel.cpp:43-60 | One turn of that loop, failed removals ignored as in the source |
| Server.BroadcastServer.JoinLoaded | server/src/application/usecase/join_channel.cpp:75-100 | The shared part of both joins, through a copy of the target read before the loop |
| Server.BroadcastServer.Enter | server/src/application/usecase/join_channel.cpp:79-99 | Member set, session and announcements, with the copy written back only if it changed |
| Server.BroadcastServer.JoinChannel | server/src/application/usecase/join_channel.cpp:64-101 | Stores, streams and answer of a join by id |
| Server.BroadcastServer.JoinChannelByName | server/src/application/usecase/join_channel.cpp:103-148 | Stores, streams and answer of a join by name |
| Server.BroadcastServer.LeaveChannel | server/src/application/usecase/leave_channel.cpp:27-49 | Stores, streams and answer of a leave |
| Server.BroadcastServer.Connect | server/src/adapter/grpc/broadcast_service_impl.cpp:62-76 | Stores and answer of a connect |
| Server.BroadcastServer.Heartbeat | server/src/adapter/grpc/broadcast_service_impl.cpp:240-252 | Stores and answer of a heartbeat |
| Server.BroadcastServer.CreateChannel | server/src/application/usecase/create_channel.cpp:26-45 | Stores, streams and answer of a creation |
| Server.BroadcastServer.SendMessage | server/src/application/usecase/send_message.cpp:30-63 | Stores, streams and answer of a send; every member is published to once |
| Server.BroadcastServer.Disconnect | server/src/adapter/grpc/broadcast_service_impl.cpp:78-106 | The loop over a snapshot of the joined channels, then removal and disarming |
| Server.BroadcastServer.ExpireInactiveClients | server/src/application/usecase/expire_inactive_clients.cpp:26-54 | The nested sweep loops over copies collected before; the count is the number of expired sessions |
| Server.BroadcastServer.SubscribeToChannel | server/src/adapter/grpc/broadcast_service_impl.cpp:266-271 | Registered before the membership check and unregistered again when it fails; accepted exactly for members of the channel |
| Server.BroadcastServer.SubscribeToChannelList | server/src/application/usecase/subscribe_to_channel_list.cpp:19-28 | Only live clients subscribe; the new stream starts with a snapshot of the repository |
| Text.TrimIsInnerSlice | shared/src/string_utils.cpp:17-25 | Trimming cuts nothing but whitespace, and all of it, off both ends |
| Text.TrimIsTheInnerSlice | shared/src/string_utils.cpp:17-25 | The result is the only slice obtained that way |
| Text.TrimIdempotent | shared/src/string_utils.cpp:17-25 | Trimming twice is trimming once |
| Text.TrimView | shared/src/string_utils.cpp:17-25 | The two loops that shrink the view compute that slice |
| Text.SpaceIs | shared/src/string_utils.cpp:11-13 | Whitespace is exactly tab, line feed, vertical tab, form feed, carriage return and blank |
| Text.NameAcceptedIff | server/src/domain/model/channel_name.cpp:12-29 | A channel name or username is accepted if and only if it has a permitted length and every character is one of the letters, digits and signs listed; it is kept as it is, and needs no trimming |
| Text.SubmittedTextAccepted | server/src/domain/model/message_content.cpp:31-43 | A submitted line that parses as plain text and is not blank is stored exactly as trimmed, and can be refused for its length only |
| Text.AcceptedContentCanBeTyped | client-cli/src/adapter/tui/ftxui_presenter.cpp:160-170 | Every content the server accepts is sent unchanged when typed |
| Text.ParsedArgumentNotBlank | client-cli/include/bcmd/client/adapter/cli/command_parser.hpp:25-36 | A parsed join or create always has a non-empty, trimmed argument |
| Text.CommandRoundTrip | client-cli/include/bcmd/client/adapter/cli/command_parser.hpp:19-50 | Parsing "/join " or "/create " followed by any non-empty trimmed name gives the name back |
| Text.CommandKinds | client-cli/include/bcmd/client/adapter/cli/command_parser.hpp:19-50 | What a line is taken for, by its trimmed form: each of the three bare commands exactly for its word, a join or creation exactly for its first word and blank, text exactly without a leading slash, and an unknown command keeps the line |

## Left out

- Transport, TLS, protobuf encoding, the option parser, logging and real clocks; parsing of UUIDs in request fields, so the InvalidArgument answer of a malformed cursor and the id-or-name dispatch of a join request are not modelled.
- The repositories for MongoDB and PostgreSQL, which always fail, the event log, which nobody reads, the null publishers, and broadcastEvent, which nobody calls.
- React rendering, query caching across channel switches, retries and garbage collection of the cache; the terminal user interface beyond its command line.
- The save and findByUsername operations of the client registry, which no use case calls.
- The creation time of a channel and the connection time of a session, which nothing reads.
- ListPublisher.GrpcChannelListPublisher.RegisterSubscriberWithSnapshot: member counts are natural numbers; the narrowing to 32 bits in the wire format is not modelled.
- Atomicity.DisjointNeedsKeepLinks: as Atomicity.DisjointNeedsAreAtomic it excludes sweeps; requests that overlap are treated in Races and JoinRaces for two joins of one channel and in Races and Departures for a send and a join or departure, other pairs are not.
- Atomicity.DisjointNeedsAreAtomic: excludes sweeps, which read every session, and compares stores and answers, not event streams; those are the subject of the two protocol modules.
- SnapshotProtocol.NoChannelMissed: speaks of ids and names only; for counts see SnapshotProtocol.ShownCountIff; a creation is followed from its repository section on, after the session and name checks.
- SnapshotProtocol.RunKeepsInv: a write under an entry's lock is one step here; WriterProtocol.RunKeepsInv has it in its parts.
- LockOrder.NoDeadlock: assumes that a Write returns, as a step of work that always can be taken.
- Server.BroadcastServer.JoinChannel: requires exact store indexes, so that a record found under an id carries that id; Runs.RunKeepsInv and Interleaving.RunKeepsInv prove that they always are.
- Server.BroadcastServer.ExpireInactiveClients: requires an exact registry index for the same reason.
- Writers.WriterTable.Register: requires a writer without a stream; each subscription call opens its own.
- LiveView.ViewIsLogSegmentIff: covers one visit to a channel, from an empty cache entry on, with one subscription; the client does not resubscribe by itself.
- LiveHistory.RunKeepsInv: an older page is appended to the pages as they stand when the answer arrives; whether a live message injected while that fetch is open survives it is up to the query library.
- LiveHistory.ShownIsCovered: which messages the stream delivers, of this channel or another, and in which order, is left open here; Races, Departures and Delivery say to whom a message goes.
- HistoryPaging.AllPagesAreTheBuffer: speaks of pages loaded while nothing is saved and before the drain, which puts live messages on the first page; for any order of events see HistoryPaging.NoOlderPageIff and LiveView.GapFreeIff.
- Announcements.RosterIsMembers: the client counts as in the channel after each request; when requests overlap, what is announced can differ from what is stored, as Races.FirstJoinIsLost and JoinRaces.FirstStaysBehind show for the stores.
- ChatRounds.NeverStuck: as in LockOrder.NoDeadlock a Write in flight returns; that a waiting thread gets its turn is up to the scheduler.
- Answers.AnswerIs: an answer is accepted or an error here; the ids that are answered are the subject of Answers.ConnectedUnder, Answers.CreatedUnder and Answers.SentIsNewest.
- Runs.RunKeepsInv: the history request changes nothing and is not a step of runs.

/**
 The live view and the runs of whole requests put together: while a client stays a
 member and keeps its writer, what its stream delivers is the log in order, so the
 results about streams in order apply.
 */
module LiveDelivery {
  import opened Core
  import opened MessageRepository
  import opened ListMessages
  import Delivery
  import Runs
  import Live = LiveHistory
  import View = LiveView
  import opened MessageView
  import opened Writers

  // A stretch of a run of whole requests in which the client is a member of the channel
  // and keeps its writer.
  ghost predicate Served(cap: nat, worlds: seq<Runs.World>, requests: seq<Runs.Request>, i: nat, j: nat,
                         client: ClientId, writer: WriterId, channel: ChannelId)
  {
    && Runs.Run(cap, worlds, requests) && i <= j < |worlds|
    && Delivery.Subscribed(worlds, i, j, client, writer) && Delivery.MemberThroughout(worlds, i, j, client, channel)
  }

  // What the client's stream has been sent meanwhile.
  ghost function Sent(worlds: seq<Runs.World>, i: nat, j: nat, writer: WriterId): seq<Message>
    requires i <= j < |worlds| && writer in worlds[i].chat.written && writer in worlds[j].chat.written
    requires |Delivery.Messages(worlds[i].chat.written[writer])| <= |Delivery.Messages(worlds[j].chat.written[writer])|
  {
    Delivery.Messages(worlds[j].chat.written[writer])[|Delivery.Messages(worlds[i].chat.written[writer])|..]
  }

  // At world j the client has received some part of this, in the order of the stream.
  ghost predicate HasReceived(worlds: seq<Runs.World>, i: nat, j: nat, writer: WriterId, s: Live.State,
                              channel: ChannelId)
    requires i <= j < |worlds|
  {
    && writer in worlds[i].chat.written && writer in worlds[j].chat.written
    && |Delivery.Messages(worlds[i].chat.written[writer])| <= |Delivery.Messages(worlds[j].chat.written[writer])|
    && s.saves == worlds[j].saves && Live.Arrivals(s, Live.Log(s, channel))
    && Live.Came(s, Live.Log(s, channel)) <= Sent(worlds, i, j, writer)
  }

  lemma ServedStream(cap: nat, worlds: seq<Runs.World>, requests: seq<Runs.Request>, i: nat, j: nat, client: ClientId,
                     writer: WriterId, channel: ChannelId)
    requires Served(cap, worlds, requests, i, j, client, writer, channel)
    ensures writer in worlds[i].chat.written && writer in worlds[j].chat.written
    ensures |Delivery.Messages(worlds[i].chat.written[writer])| <= |Delivery.Messages(worlds[j].chat.written[writer])|
    ensures var from, to := SentTo(worlds[i].saves, channel), SentTo(worlds[j].saves, channel);
      from <= to && Sent(worlds, i, j, writer) == to[|from|..]
  {
    Delivery.MemberReceivesLogSegment(cap, worlds, requests, i, j, client, writer, channel);
    hide Runs.Run; hide SentTo; hide Delivery.Messages; hide Delivery.Subscribed; hide Delivery.MemberThroughout;
  }

  // A client that is served while requests run as a whole, and has received a part of
  // its stream in the order of the stream, has received the log in order from the
  // position at which it began to be served, and nothing foreign.
  lemma ServedInOrder(cap: nat, worlds: seq<Runs.World>, requests: seq<Runs.Request>, i: nat, j: nat, client: ClientId,
                      writer: WriterId, channel: ChannelId, states: seq<Live.State>, events: seq<Live.Event>, n: nat)
    requires Served(cap, worlds, requests, i, j, client, writer, channel)
    requires Live.Run(cap, channel, states, events) && n < |states|
    requires HasReceived(worlds, i, j, writer, states[n], channel)
    ensures View.InOrder(states[n], |SentTo(worlds[i].saves, channel)|)
  {
    ServedStream(cap, worlds, requests, i, j, client, writer, channel);
    Live.RunKeepsInv(cap, channel, states, events, n);
    var s, log, start := states[n], SentTo(worlds[j].saves, channel), |SentTo(worlds[i].saves, channel)|;
    var came := Live.Came(s, log);
    forall k | 0 <= k < |s.arrived| ensures s.arrived[k] == Live.Logged(start + k) {
      assert came[k] == Sent(worlds, i, j, writer)[k] && came[k] == log[start + k];
      assert s.arrived[k] in s.arrived;
      IsLogged(s, channel, s.arrived[k], start + k);
    }
  }

  lemma IsLogged(s: Live.State, channel: ChannelId, a: Live.Arrival, position: nat)
    requires Live.Inv(s, channel) && a in s.arrived && position < |Live.Log(s, channel)|
    requires (a.Logged? ==> a.position < |Live.Log(s, channel)|)
             && Live.MessageOf(Live.Log(s, channel), a) == Live.Log(s, channel)[position]
    ensures a == Live.Logged(position)
  {
    if a.Stray? {
      assert Live.Log(s, channel)[position] in Live.Log(s, channel);
      Live.ElsewhereIsNotLogged(s.saves, channel, a.message);
    }
  }

  // The client's view of whole requests, end to end: registered no later than the first
  // page was taken and caught up with the oldest page, with increasing times, the list
  // is the log from the oldest page or the first message sent to it to the last message
  // received or loaded.
  lemma ServedViewIsLog(cap: nat, worlds: seq<Runs.World>, requests: seq<Runs.Request>, i: nat, j: nat,
                        client: ClientId, writer: WriterId, channel: ChannelId, states: seq<Live.State>,
                        events: seq<Live.Event>, n: nat)
    requires Served(cap, worlds, requests, i, j, client, writer, channel)
    requires Live.Run(cap, channel, states, events) && n < |states|
    requires HasReceived(worlds, i, j, writer, states[n], channel)
    requires states[n].hook.initialFetched && View.Meet(states[n], |SentTo(worlds[i].saves, channel)|)
    requires View.TimesIncrease(SentTo(worlds[j].saves, channel))
    ensures var s, log, start := states[n], SentTo(worlds[j].saves, channel), |SentTo(worlds[i].saves, channel)|;
      var a, b := if s.lo <= start then s.lo else start,
                  if s.hi <= View.Reached(s, start) then View.Reached(s, start) else s.hi;
      0 <= a <= b <= |log| && Shown(s.hook.cache) == log[a..b]
  {
    ServedInOrder(cap, worlds, requests, i, j, client, writer, channel, states, events, n);
    View.ViewIsLogSegment(cap, channel, states, events, n, |SentTo(worlds[i].saves, channel)|);
  }

  // ----- Every such stretch is a run of the live view -----

  // Everything sent to the client has come, in order, and nothing has been loaded.
  ghost predicate AllCame(s: Live.State, saves: seq<Message>, channel: ChannelId, start: nat) {
    && s.saves == saves && s.subscribed && s.passed == {} && s.hook.cache.Missing? && !s.hook.initialFetched
    && View.InOrder(s, start) && View.Reached(s, start) == |SentTo(saves, channel)|
  }

  lemma SaveGoesOn(cap: nat, channel: ChannelId, states: seq<Live.State>, events: seq<Live.Event>, saves: seq<Message>,
                   start: nat, message: Message) returns (longer: seq<Live.State>, more: seq<Live.Event>)
    requires Live.Run(cap, channel, states, events) && |states| == |events| + 1
    requires AllCame(states[|events|], saves, channel, start) && forall m :: m in saves ==> m.id != message.id
    ensures Live.Run(cap, channel, longer, more) && |longer| == |more| + 1
    ensures AllCame(longer[|more|], saves + [message], channel, start)
  {
    hide Live.Run; hide Live.Step;
    var s := states[|events|];
    var saved := s.(saves := s.saves + [message]);
    View.SaveStep(cap, channel, s, message);
    longer, more := View.Extended(cap, channel, states, events, Live.Event.Saved(message), saved);
    assert saved.saves[..|s.saves|] == s.saves;
    if message.channel == channel {
      var came := Comes(cap, channel, s, saved, message, start);
      longer, more := View.Extended(cap, channel, longer, more, Live.Delivered(|SentTo(s.saves, channel)|), came);
    }
  }

  lemma Comes(cap: nat, channel: ChannelId, s: Live.State, saved: Live.State, message: Message, start: nat)
    returns (came: Live.State)
    requires AllCame(s, s.saves, channel, start) && message.channel == channel
    requires saved == s.(saves := s.saves + [message]) && saved.saves[..|s.saves|] == s.saves
    ensures Live.Step(cap, channel, saved, Live.Delivered(|SentTo(s.saves, channel)|), came)
    ensures AllCame(came, saved.saves, channel, start)
  {
    var position := |SentTo(s.saves, channel)|;
    assert SentTo(saved.saves, channel) == SentTo(s.saves, channel) + [message];
    hide SentTo;
    came := saved.(hook := OnLive(saved.hook, message), arrived := saved.arrived + [Live.Logged(position)]);
  }

  lemma SavesOneOrNone(w: Runs.World, request: Runs.Request)
    requires Runs.Inv(w) && Runs.Admissible(w, request)
    ensures var saved := Runs.SavedBy(w.stores, request);
      && Runs.Next(w, request).saves == w.saves + saved
      && (saved == [] || (saved == [saved[0]] && forall m :: m in w.saves ==> m.id != saved[0].id))
  {
    Runs.MessagesAfter(w, request);
    hide Runs.SavedBy; hide Runs.Inv; hide Runs.StalesAfter; hide Runs.ChatAfter; hide Runs.ListAfter;
    hide Runs.Execute;
  }

  lemma JustSubscribed(cap: nat, w: Runs.World, channel: ChannelId)
    returns (states: seq<Live.State>, events: seq<Live.Event>)
    requires Runs.HistoryInv(cap, w)
    ensures Live.Run(cap, channel, states, events) && |states| == |events| + 1
    ensures AllCame(states[|events|], w.saves, channel, |SentTo(w.saves, channel)|)
  {
    hide Buffers.Save; hide SaveAll; hide SentTo;
    var s := Live.State(w.saves, FRESH, false, [], {}, 0, 0, 0);
    states, events := [s, s.(subscribed := true)], [Live.Subscribed];
  }

  lemma RunStep(cap: nat, worlds: seq<Runs.World>, requests: seq<Runs.Request>, k: nat)
    requires Runs.Run(cap, worlds, requests) && k + 1 < |worlds|
    ensures k < |requests| && Runs.Admissible(worlds[k], requests[k])
    ensures worlds[k + 1] == Runs.Next(worlds[k], requests[k])
  {
    hide Runs.Admissible; hide Runs.Next; hide Runs.Start;
  }

  // Whatever requests run, the live view can follow them, and a client that is served
  // then has received all that its stream was sent.
  lemma {:induction false} FollowRun(cap: nat, worlds: seq<Runs.World>, requests: seq<Runs.Request>, i: nat, j: nat,
                                     channel: ChannelId) returns (states: seq<Live.State>, events: seq<Live.Event>)
    requires Runs.Run(cap, worlds, requests) && i <= j < |worlds|
    ensures Live.Run(cap, channel, states, events) && |states| == |events| + 1
    ensures AllCame(states[|events|], worlds[j].saves, channel, |SentTo(worlds[i].saves, channel)|)
    decreases j
  {
    hide *;
    if i == j {
      Runs.RunKeepsHistory(cap, worlds, requests, i);
      states, events := JustSubscribed(cap, worlds[i], channel);
    } else {
      states, events := FollowRun(cap, worlds, requests, i, j - 1, channel);
      RunStep(cap, worlds, requests, j - 1);
      Runs.RunKeepsInv(cap, worlds, requests, j - 1);
      var w, request := worlds[j - 1], requests[j - 1];
      SavesOneOrNone(w, request);
      var saved := Runs.SavedBy(w.stores, request);
      if saved == [] {
        assert w.saves + saved == w.saves;
      } else {
        var start := |SentTo(worlds[i].saves, channel)|;
        states, events := SaveGoesOn(cap, channel, states, events, w.saves, start, saved[0]);
      }
    }
  }

  lemma FollowedIsSent(cap: nat, worlds: seq<Runs.World>, requests: seq<Runs.Request>, i: nat, j: nat, client: ClientId,
                       writer: WriterId, channel: ChannelId)
    returns (states: seq<Live.State>, events: seq<Live.Event>)
    requires Served(cap, worlds, requests, i, j, client, writer, channel)
    ensures Live.Run(cap, channel, states, events) && |states| == |events| + 1
    ensures var s := states[|events|];
      && HasReceived(worlds, i, j, writer, s, channel)
      && Live.Came(s, Live.Log(s, channel)) == Sent(worlds, i, j, writer)
  {
    ServedStream(cap, worlds, requests, i, j, client, writer, channel);
    states, events := FollowRun(cap, worlds, requests, i, j, channel);
    Live.RunKeepsInv(cap, channel, states, events, |events|);
    hide Runs.Run; hide Live.Run; hide SentTo; hide Served; hide Live.Holds; hide Live.Cursor; hide Live.ServerPages;
    hide Live.Strays; hide DistinctIds; hide Delivery.Messages;
    var s, log, start := states[|events|], SentTo(worlds[j].saves, channel), |SentTo(worlds[i].saves, channel)|;
    assert forall k :: 0 <= k < |s.arrived| ==> Live.Came(s, log)[k] == log[start..][k];
  }
}

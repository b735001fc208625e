/**
 The channel map of the web client, folded from the events of the channel-list
 stream.
 */
module ChannelsStore {
  import opened Core
  import opened ChannelRepository
  import opened ListPublisher

  datatype View = View(channels: map<ChannelId, Summary>, snapshotApplied: bool)

  const INITIAL := View(map[], false)

  // Later entries of the list win, as in a Map filled front to back.
  function ById(list: seq<Summary>): map<ChannelId, Summary> {
    if list == [] then map[]
    else ById(list[..|list| - 1])[list[|list| - 1].id := list[|list| - 1]]
  }

  function Receive(view: View, event: ListEvent): View {
    match event
    case Snapshot(channels) => View(ById(channels), true)
    case Created(summary) => view.(channels := view.channels[summary.id := summary])
    case CountChanged(channel, count) =>
      if channel !in view.channels then view
      else view.(channels := view.channels[channel := view.channels[channel].(count := count)])
  }

  function Fold(events: seq<ListEvent>): View {
    if events == [] then INITIAL
    else Receive(Fold(events[..|events| - 1]), events[|events| - 1])
  }

  lemma FoldSnoc(events: seq<ListEvent>, event: ListEvent)
    ensures Fold(events + [event]) == Receive(Fold(events), event)
  {
    assert (events + [event])[..|events|] == events;
  }

  // A snapshot makes the map hold exactly the listed channels, whatever it held before.
  lemma {:induction false} ByIdHoldsList(list: seq<Summary>)
    ensures forall id :: id in ById(list) <==> exists i :: 0 <= i < |list| && list[i].id == id
    ensures forall id :: id in ById(list) ==> ById(list)[id] in list && ById(list)[id].id == id
  {
    if list != [] {
      var front, last := list[..|list| - 1], list[|list| - 1];
      ByIdHoldsList(front);
      forall id ensures id in ById(list) <==> exists i :: 0 <= i < |list| && list[i].id == id {
        if id in ById(front) {
          var i :| 0 <= i < |front| && front[i].id == id;
          assert list[i].id == id;
        }
        if i :| 0 <= i < |list| && list[i].id == id {
          assert i < |front| ==> front[i].id == id;
        }
      }
    }
  }

  // The snapshot of a repository shows exactly its channels.
  lemma SnapshotHoldsRepo(listed: seq<ChannelRecord>, repo: Repo)
    requires repo.Inv() && Lists(listed, repo)
    ensures ById(SummariseAll(listed)).Keys == repo.byId.Keys
    ensures forall id :: id in repo.byId ==> ById(SummariseAll(listed))[id] == Summarise(repo.byId[id])
  {
    var list := SummariseAll(listed);
    ByIdHoldsList(list);
    forall i | 0 <= i < |listed|
      ensures list[i].id in repo.byId && list[i] == Summarise(repo.byId[list[i].id])
    {
      var id :| id in repo.byId && repo.byId[id] == listed[i];
    }
    forall id ensures id in ById(list) <==> id in repo.byId {
      if id in repo.byId {
        var i :| 0 <= i < |listed| && listed[i] == repo.byId[id];
        assert list[i].id == id;
      }
    }
  }

  class ChannelsStoreState {
    var channels: map<ChannelId, Summary>
    var snapshotApplied: bool

    ghost function State(): View
      reads this
    {
      View(channels, snapshotApplied)
    }

    constructor ()
      ensures State() == INITIAL
    {
      channels, snapshotApplied := map[], false;
    }

    method ApplySnapshot(list: seq<Summary>)
      modifies this
      ensures State() == Receive(old(State()), Snapshot(list))
    {
      var filled: map<ChannelId, Summary> := map[];
      for i := 0 to |list|
        invariant filled == ById(list[..i])
      {
        assert list[..i + 1][..i] == list[..i];
        filled := filled[list[i].id := list[i]];
      }
      assert list[..|list|] == list;
      channels, snapshotApplied := filled, true;
    }

    method ApplyCreated(channel: Summary)
      modifies this`channels
      ensures State() == Receive(old(State()), Created(channel))
    {
      channels := channels[channel.id := channel];
    }

    method ApplyMemberCountChanged(channelId: ChannelId, memberCount: nat)
      modifies this`channels
      ensures State() == Receive(old(State()), CountChanged(channelId, memberCount))
    {
      if channelId !in channels {
        return;
      }
      channels := channels[channelId := channels[channelId].(count := memberCount)];
    }
  }
}

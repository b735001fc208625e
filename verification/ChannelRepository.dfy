/**
 The channel repository: an id map and a name index, changed together under
 one lock. Repo is the value of both maps; its functions are the
 lock-protected sections of the original.
 */
module ChannelRepository {
  import opened Core

  datatype Repo = Repo(byId: map<ChannelId, ChannelRecord>, idOf: map<ChannelName, ChannelId>) {

    function Find(id: ChannelId): Result<ChannelRecord> {
      if id in byId then Ok(byId[id]) else Err(ChannelNotFound)
    }

    function FindByName(name: ChannelName): Result<ChannelRecord> {
      if name !in idOf then Err(ChannelNotFound) else Find(idOf[name])
    }

    function Save(channel: ChannelRecord): Repo {
      Repo(byId[channel.id := channel], idOf[channel.name := channel.id])
    }

    // The id of the new channel is generated inside; here it is passed in.
    function Create(name: ChannelName, newId: ChannelId): (r: (Repo, Result<ChannelRecord>))
      ensures r.1.Err? ==> r.0 == this
    {
      if name in idOf then (this, Err(ChannelAlreadyExists))
      else
        var channel := ChannelRecord(newId, name, {});
        (Repo(if newId in byId then byId else byId[newId := channel], idOf[name := newId]), Ok(channel))
    }

    // The name index is the exact inverse of the id map.
    ghost predicate Inv() {
      && (forall id :: id in byId ==>
            byId[id].id == id && byId[id].name in idOf && idOf[byId[id].name] == id)
      && (forall name :: name in idOf ==> idOf[name] in byId && byId[idOf[name]].name == name)
    }

    // Channels are never renamed, nor deleted, on the way from this to later.
    ghost predicate KeptBy(later: Repo) {
      forall id :: id in byId ==> id in later.byId && later.byId[id].name == byId[id].name
    }
  }

  const EMPTY_REPO := Repo(map[], map[])

  // Exactly when a save leaves the index exact: the saved copy carries the
  // stored name of its id, or both its id and its name are new.
  lemma SaveKeepsIndexExact(repo: Repo, channel: ChannelRecord)
    requires repo.Inv()
    ensures repo.Save(channel).Inv()
      <==> if channel.id in repo.byId then repo.byId[channel.id].name == channel.name
           else channel.name !in repo.idOf
  {
    var saved := repo.Save(channel);
    if channel.id in repo.byId && repo.byId[channel.id].name != channel.name {
      var oldName := repo.byId[channel.id].name;
      assert oldName in saved.idOf && saved.idOf[oldName] == channel.id;
      assert !saved.Inv();
    } else if channel.id !in repo.byId && channel.name in repo.idOf {
      var oldId := repo.idOf[channel.name];
      assert oldId in saved.byId && saved.byId[oldId].name == channel.name;
      assert !saved.Inv();
    }
  }

  lemma CreateKeepsIndexExact(repo: Repo, name: ChannelName, newId: ChannelId)
    requires repo.Inv() && newId !in repo.byId
    ensures repo.Create(name, newId).0.Inv() && repo.KeptBy(repo.Create(name, newId).0)
    ensures repo.Create(name, newId).1.Ok? <==> repo.FindByName(name).Err?
    ensures repo.Create(name, newId).1.Ok? ==>
      repo.Create(name, newId).0.FindByName(name) == repo.Create(name, newId).1
  {
  }

  // Looking a name up finds the one channel that bears it.
  lemma FindByNameIsFindById(repo: Repo, name: ChannelName, id: ChannelId)
    requires repo.Inv()
    ensures repo.FindByName(name).Ok? && repo.FindByName(name).value.id == id
      <==> repo.Find(id).Ok? && repo.Find(id).value.name == name
    ensures repo.FindByName(name).Ok? && repo.FindByName(name).value.id == id ==>
      repo.FindByName(name) == repo.Find(id)
  {
  }

  // channels lists every stored channel once, in some order.
  ghost predicate Lists(channels: seq<ChannelRecord>, repo: Repo) {
    && (forall i :: 0 <= i < |channels| ==> channels[i] in repo.byId.Values)
    && (forall id :: id in repo.byId ==> repo.byId[id] in channels)
    && |channels| == |repo.byId|
  }

  class InMemoryChannelRepository {
    var channelsById: map<ChannelId, ChannelRecord>
    var nameToId: map<ChannelName, ChannelId>

    ghost function State(): Repo
      reads this
    {
      Repo(channelsById, nameToId)
    }

    constructor ()
      ensures State() == EMPTY_REPO
    {
      channelsById, nameToId := map[], map[];
    }

    method FindById(channelId: ChannelId) returns (r: Result<ChannelRecord>)
      ensures r == State().Find(channelId)
    {
      if channelId !in channelsById {
        return Err(ChannelNotFound);
      }
      r := Ok(channelsById[channelId]);
    }

    method FindByName(name: ChannelName) returns (r: Result<ChannelRecord>)
      ensures r == State().FindByName(name)
    {
      if name !in nameToId {
        return Err(ChannelNotFound);
      }
      var id := nameToId[name];
      if id !in channelsById {
        return Err(ChannelNotFound);
      }
      r := Ok(channelsById[id]);
    }

    method ListAll() returns (channels: seq<ChannelRecord>)
      ensures Lists(channels, State())
    {
      channels := [];
      var todo := channelsById.Keys;
      while todo != {}
        invariant todo <= channelsById.Keys
        invariant |channels| + |todo| == |channelsById|
        invariant forall i :: 0 <= i < |channels| ==> channels[i] in channelsById.Values
        invariant forall id :: id in channelsById.Keys - todo ==> channelsById[id] in channels
        decreases todo
      {
        var id :| id in todo;
        channels := channels + [channelsById[id]];
        todo := todo - {id};
      }
    }

    method Save(channel: ChannelRecord)
      modifies this
      ensures State() == old(State()).Save(channel)
    {
      channelsById := channelsById[channel.id := channel];
      nameToId := nameToId[channel.name := channel.id];
    }

    method Create(name: ChannelName, newId: ChannelId) returns (r: Result<ChannelRecord>)
      modifies this
      ensures (State(), r) == old(State()).Create(name, newId)
    {
      if name in nameToId {
        return Err(ChannelAlreadyExists);
      }
      var channel := ChannelRecord(newId, name, {});
      if newId !in channelsById {
        channelsById := channelsById[newId := channel];
      }
      nameToId := nameToId[name := newId];
      r := Ok(channel);
    }
  }
}

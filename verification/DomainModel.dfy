/**
 The two aggregates whose methods update them in place. Use cases work on a
 copy taken from a store and write it back, so each class can be built from a
 record and turned into one.
 */
module DomainModel {
  import opened Core

  class Channel {
    const id: ChannelId
    const name: ChannelName
    var members: set<ClientId>

    constructor CopyOf(record: ChannelRecord)
      ensures Record() == record
    {
      id, name, members := record.id, record.name, record.members;
    }

    function Record(): ChannelRecord
      reads this
    {
      ChannelRecord(id, name, members)
    }

    method AddMember(clientId: ClientId) returns (r: Result<Unit>)
      modifies this
      ensures r == if clientId in old(members) then Err(AlreadyMember) else Ok(Unit)
      ensures Record() == old(Record()).(members := old(members) + {clientId})
    {
      if clientId in members {
        return Err(AlreadyMember);
      }
      members := members + {clientId};
      r := Ok(Unit);
    }

    method RemoveMember(clientId: ClientId) returns (r: Result<Unit>)
      modifies this
      ensures r == if clientId in old(members) then Ok(Unit) else Err(NotAMember)
      ensures Record() == old(Record()).(members := old(members) - {clientId})
    {
      if clientId !in members {
        return Err(NotAMember);
      }
      members := members - {clientId};
      r := Ok(Unit);
    }

    predicate HasMember(clientId: ClientId)
      reads this
    {
      clientId in members
    }
  }

  class ClientSession {
    const id: ClientId
    const username: Username
    var joinedChannels: set<ChannelId>
    var lastHeartbeatAt: int

    constructor (id: ClientId, username: Username, now: int)
      ensures Record() == SessionRecord(id, username, {}, now)
    {
      this.id, this.username, joinedChannels, lastHeartbeatAt := id, username, {}, now;
    }

    constructor CopyOf(record: SessionRecord)
      ensures Record() == record
    {
      id, username := record.id, record.username;
      joinedChannels, lastHeartbeatAt := record.joined, record.lastHeartbeat;
    }

    function Record(): SessionRecord
      reads this
    {
      SessionRecord(id, username, joinedChannels, lastHeartbeatAt)
    }

    method Touch(now: int)
      modifies this`lastHeartbeatAt
      ensures Record() == old(Record()).(lastHeartbeat := now)
    {
      lastHeartbeatAt := now;
    }

    predicate IsExpired(deadline: int)
      reads this
    {
      lastHeartbeatAt < deadline
    }

    method JoinChannel(channelId: ChannelId)
      modifies this`joinedChannels
      ensures Record() == old(Record()).(joined := old(joinedChannels) + {channelId})
    {
      joinedChannels := joinedChannels + {channelId};
    }

    method LeaveChannel(channelId: ChannelId)
      modifies this`joinedChannels
      ensures Record() == old(Record()).(joined := old(joinedChannels) - {channelId})
    {
      joinedChannels := joinedChannels - {channelId};
    }
  }
}

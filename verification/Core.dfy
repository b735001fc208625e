/**
 Values shared by every part of the model: identifiers, the records that the
 stores keep, the errors the server reports, and the two shapes in which
 operations answer.

 The original keeps its channels and sessions BY VALUE in hash maps and hands
 out copies; ChannelRecord and SessionRecord are those values.
 */
module Core {

  datatype Option<+T> = None | Some(value: T)

  datatype Error =
    | ChannelNotFound | ChannelAlreadyExists
    | ClientNotFound | ClientAlreadyExists
    | AlreadyMember | NotAMember
    | MessageEmpty | MessageInvalidPrefix | MessageTooLong
    | InvalidUsername | InvalidChannelName

  datatype Result<+T> = Ok(value: T) | Err(error: Error)

  datatype Unit = Unit

  // Identifiers wrap the text of a UUID; fresh ones are passed in by the caller.
  datatype ClientId = ClientId(value: string)
  datatype ChannelId = ChannelId(value: string)
  datatype MessageId = MessageId(value: string)
  // Threads, and the entries in which the publishers keep their writers.
  datatype Tid = Tid(value: nat)
  datatype EntryId = EntryId(value: nat)
  // Names that have passed validation.
  datatype ChannelName = ChannelName(value: string)
  datatype Username = Username(value: string)

  datatype ChannelRecord = ChannelRecord(id: ChannelId, name: ChannelName, members: set<ClientId>)

  // lastHeartbeat is a reading of a monotone clock.
  datatype SessionRecord = SessionRecord(
    id: ClientId, username: Username, joined: set<ChannelId>, lastHeartbeat: int)

  // sentAt is the send time in milliseconds since the epoch.
  datatype Message = Message(
    id: MessageId, sender: ClientId, channel: ChannelId, content: string, sentAt: int)

  // ----- Sequences that list a set without repetition -----

  ghost function Elems<T>(q: seq<T>): set<T> {
    set x | x in q
  }

  ghost predicate NoDup<T>(q: seq<T>) {
    forall i, j :: 0 <= i < j < |q| ==> q[i] != q[j]
  }

  // q is one of the orders in which an unordered container holding s can be walked.
  ghost predicate Enumerates<T>(q: seq<T>, s: set<T>) {
    NoDup(q) && Elems(q) == s
  }

  lemma EnumeratesTail<T>(q: seq<T>, s: set<T>)
    requires Enumerates(q, s) && q != []
    ensures q[0] in s && Enumerates(q[1..], s - {q[0]})
  {
    assert q[0] in Elems(q);
    assert q == [q[0]] + q[1..];
    assert forall x :: x in Elems(q[1..]) ==> x in s && x != q[0];
    assert forall x :: x in s - {q[0]} ==> x in Elems(q) && x in q[1..];
  }

  lemma EnumeratesSnoc<T>(q: seq<T>, s: set<T>, x: T)
    requires Enumerates(q, s) && x !in s
    ensures Enumerates(q + [x], s + {x})
  {
    assert forall y :: y in q ==> y in Elems(q);
    assert forall y :: y in Elems(q + [x]) <==> y in Elems(q) || y == x;
  }

  // Any two orders of the same set have the same length, the size of the set.
  lemma {:induction false} EnumeratesLength<T>(q: seq<T>, s: set<T>)
    requires Enumerates(q, s)
    ensures |q| == |s|
  {
    if q == [] {
      assert s == {};
    } else {
      EnumeratesTail(q, s);
      EnumeratesLength(q[1..], s - {q[0]});
    }
  }

  // Some fixed but unknown order of a set.
  ghost function AnyOrder<T(!new)>(s: set<T>): (q: seq<T>)
    ensures Enumerates(q, s)
  {
    if s == {} then []
    else
      var x :| x in s;
      var rest := AnyOrder(s - {x});
      assert forall y :: y in rest ==> y in Elems(rest);
      assert forall y :: y in Elems([x] + rest) <==> y == x || y in Elems(rest);
      [x] + rest
  }

  // The order in which a container holding s is walked: the given one if it lists
  // s, so that any order can be asked for.
  ghost function InOrder<T(!new)>(walk: seq<T>, s: set<T>): (q: seq<T>)
    ensures Enumerates(q, s)
    ensures Enumerates(walk, s) ==> q == walk
  {
    if Enumerates(walk, s) then walk else AnyOrder(s)
  }

  // For counting the steps of a run that have some property.
  function One(b: bool): nat {
    if b then 1 else 0
  }
}

/**
 Writers of subscribed clients, as both publishers keep them: a map from client
 to a shared entry that points at the writer, or at nothing once disarmed.
 Writing appends to the stream of a WriterId. Streams is the value of the
 table; the class is the object that changes in place when its operations run
 one at a time.
 */
module Writers {
  import opened Core

  datatype WriterId = WriterId(value: nat)

  datatype Streams<E> = Streams(writers: map<ClientId, WriterId>, written: map<WriterId, seq<E>>) {

    // Every registered writer has a stream, and no two subscribers share one.
    ghost predicate Inv() {
      && (forall c :: c in writers ==> writers[c] in written)
      && (forall c, d :: c in writers && d in writers && writers[c] == writers[d] ==> c == d)
    }

    // A new writer, whose stream begins with the given events.
    function Register(client: ClientId, writer: WriterId, first: seq<E>): Streams<E> {
      Streams(writers[client := writer], written[writer := first])
    }

    function Unregister(client: ClientId): Streams<E> {
      this.(writers := writers - {client})
    }

    // The writers of the recipients that are subscribed.
    function Targets(recipients: set<ClientId>): set<WriterId> {
      set c | c in writers && c in recipients :: writers[c]
    }

    function Deliver(recipients: set<ClientId>, event: E): Streams<E> {
      this.(written := AppendTo(written, Targets(recipients), event))
    }
  }

  function AppendTo<E>(written: map<WriterId, seq<E>>, targets: set<WriterId>, event: E): map<WriterId, seq<E>> {
    map w | w in written :: if w in targets then written[w] + [event] else written[w]
  }

  // Serving one more recipient.
  lemma DeliverSnoc<E>(s: Streams<E>, owners: seq<ClientId>, k: nat, event: E)
    requires s.Inv() && NoDup(owners) && k < |owners| && owners[k] in s.writers
    ensures AppendTo(s.Deliver(Elems(owners[..k]), event).written, {s.writers[owners[k]]}, event)
      == s.Deliver(Elems(owners[..k + 1]), event).written
  {
    var served, w := Elems(owners[..k]), s.writers[owners[k]];
    assert Elems(owners[..k + 1]) == served + {owners[k]};
    assert owners[k] !in served;
    assert s.Targets(served + {owners[k]}) == s.Targets(served) + {w};
    assert w !in s.Targets(served);
  }

  // What one subscriber sees of a delivery: the event once if it is a recipient,
  // nothing otherwise.
  lemma DeliverToOne<E>(s: Streams<E>, recipients: set<ClientId>, event: E, client: ClientId)
    requires s.Inv() && client in s.writers
    ensures s.Deliver(recipients, event).Inv()
    ensures s.Deliver(recipients, event).written[s.writers[client]]
      == s.written[s.writers[client]] + if client in recipients then [event] else []
  {
    assert s.writers[client] in s.Targets(recipients) <==> client in recipients;
  }

  lemma FirstDelivery<E>(s: Streams<E>, client: ClientId, writer: WriterId, event: E)
    ensures s.Register(client, writer, []).Deliver({client}, event) == s.Register(client, writer, [event])
  {
    var started := s.Register(client, writer, []);
    assert started.Targets({client}) == {writer};
    assert [] + [event] == [event];
    assert started.Deliver({client}, event).written == s.written[writer := [event]];
  }

  // Shared by the map and by every call that is about to write; None once disarmed.
  class WriterEntry {
    var writer: Option<WriterId>

    constructor (writer: WriterId)
      ensures this.writer == Some(writer)
    {
      this.writer := Some(writer);
    }
  }

  class WriterTable<E> {
    var writers: map<ClientId, WriterEntry>
    var written: map<WriterId, seq<E>>

    ghost predicate Valid()
      reads this, writers.Values
    {
      && (forall c :: c in writers ==> writers[c].writer.Some? && writers[c].writer.value in written)
      && (forall c, d :: c in writers && d in writers && writers[c].writer == writers[d].writer ==> c == d)
    }

    ghost function State(): (s: Streams<E>)
      reads this, writers.Values
      requires Valid()
      ensures s.Inv()
    {
      Streams(map c | c in writers :: writers[c].writer.value, written)
    }

    constructor ()
      ensures Valid() && State() == Streams(map[], map[])
    {
      writers, written := map[], map[];
    }

    // The writer is new, as every call of a subscription RPC opens its own stream.
    method Register(id: ClientId, writer: WriterId, first: seq<E>)
      requires Valid() && writer !in written
      modifies this
      ensures Valid() && State() == old(State()).Register(id, writer, first)
      ensures id in writers && fresh(writers[id]) && writers == old(writers)[id := writers[id]]
    {
      var entry := new WriterEntry(writer);
      writers := writers[id := entry];
      written := written[writer := first];
    }

    // The erased entry is disarmed, so that whoever still holds it will skip it.
    method Unregister(id: ClientId)
      requires Valid()
      modifies this`writers, if id in writers then {writers[id]} else {}
      ensures Valid() && State() == old(State()).Unregister(id)
      ensures writers == old(writers) - {id}
      ensures id in old(writers) ==> old(writers[id]).writer == None
    {
      if id !in writers {
        assert writers - {id} == writers;
        return;
      }
      var entry := writers[id];
      assert forall c :: c in writers && c != id ==> writers[c] != entry;
      writers := writers - {id};
      entry.writer := None;
      assert forall c :: c in writers ==> writers[c].writer == old(writers[c].writer);
      assert State().writers == old(State().writers) - {id};
    }

    method Write(entry: WriterEntry, event: E)
      requires entry.writer.Some? ==> entry.writer.value in written
      modifies this`written
      ensures written == AppendTo(old(written), if entry.writer.Some? then {entry.writer.value} else {}, event)
    {
      if entry.writer.Some? {
        var w := entry.writer.value;
        written := written[w := written[w] + [event]];
      }
    }

    // Look the entry of one client up and write to it.
    method WriteTo(id: ClientId, event: E)
      requires Valid()
      modifies this`written
      ensures Valid() && writers == old(writers)
      ensures State() == old(State()).Deliver({id}, event)
    {
      if id !in writers {
        assert State().Targets({id}) == {};
        return;
      }
      assert State().Targets({id}) == {State().writers[id]};
      Write(writers[id], event);
    }

    // The entries of the subscribed recipients, with the clients that own them.
    method CollectTargets(recipients: set<ClientId>) returns (targets: seq<WriterEntry>, ghost owners: seq<ClientId>)
      ensures |owners| == |targets| && Enumerates(owners, writers.Keys * recipients)
      ensures forall i :: 0 <= i < |owners| ==> owners[i] in writers && targets[i] == writers[owners[i]]
    {
      targets, owners := [], [];
      var todo := writers.Keys;
      while todo != {}
        invariant todo <= writers.Keys
        invariant |owners| == |targets|
        invariant forall i :: 0 <= i < |owners| ==> owners[i] in writers && targets[i] == writers[owners[i]]
        invariant Enumerates(owners, (writers.Keys - todo) * recipients)
        decreases todo
      {
        var id :| id in todo;
        ghost var seen := (writers.Keys - todo) * recipients;
        todo := todo - {id};
        if id in recipients {
          EnumeratesSnoc(owners, seen, id);
          targets, owners := targets + [writers[id]], owners + [id];
          assert (writers.Keys - todo) * recipients == seen + {id};
        } else {
          assert (writers.Keys - todo) * recipients == seen;
        }
      }
      assert (writers.Keys - {}) * recipients == writers.Keys * recipients;
    }

    method WriteEach(targets: seq<WriterEntry>, event: E, ghost owners: seq<ClientId>, ghost start: Streams<E>)
      requires start.Inv() && written == start.written
      requires |owners| == |targets| && NoDup(owners)
      requires forall i :: 0 <= i < |targets| ==>
        owners[i] in start.writers && targets[i].writer == Some(start.writers[owners[i]])
      modifies this`written
      ensures written == start.Deliver(Elems(owners), event).written
    {
      assert start.Targets({}) == {};
      for k := 0 to |targets|
        invariant written == start.Deliver(Elems(owners[..k]), event).written
      {
        DeliverSnoc(start, owners, k, event);
        Write(targets[k], event);
      }
      assert owners[..|targets|] == owners;
    }

    // Collect the entries of the recipients, then write to each of them.
    method Broadcast(recipients: set<ClientId>, event: E)
      requires Valid()
      modifies this`written
      ensures Valid() && writers == old(writers)
      ensures State() == old(State()).Deliver(recipients, event)
    {
      var targets, owners := CollectTargets(recipients);
      ghost var start := State();
      WriteEach(targets, event, owners, start);
      assert start.Targets(writers.Keys * recipients) == start.Targets(recipients);
    }
  }
}

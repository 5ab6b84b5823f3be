/** The rendezvous store of store.go: webhook payloads and one-shot wake-up
    handles, both keyed by request id. StoreState is the value the store holds
    at one instant, with one function per operation; InMemStore is the object
    whose methods update it in place. */
module Store {
  import opened Wire

  /** A webhook payload waiting for its client. */
  datatype Record = Record(content: Bytes, signature: Bytes, createdAt: int)

  /** The identity of one wake-up channel made by Await: every Await makes a
      new one, numbered from nextHandle upwards. */
  type Handle = nat

  /** The two maps of the store, the next channel identity, and the ghost log of
      every signal Put has sent, in order. */
  datatype StoreState = StoreState(
    records: map<Bytes, Record>,
    listeners: map<Bytes, Handle>,
    nextHandle: nat,
    signals: seq<Handle>)
  {
    /** Every handle registered or signalled so far has been made by Await. */
    predicate Valid()
    {
      && (forall id :: id in listeners ==> listeners[id] < nextHandle)
      && (forall i :: 0 <= i < |signals| ==> signals[i] < nextHandle)
    }

    function Get(id: Bytes): Option<Record>
    {
      if id in records then Some(records[id]) else None
    }

    /** Stores the payload stamped with the current time, ignoring the
        caller's createdAt, and signals the listener registered for id, if any. */
    function Put(id: Bytes, record: Record, now: int): (s: StoreState)
      ensures Valid() ==> s.Valid()
      ensures s.Get(id) == Some(Record(record.content, record.signature, now))
      ensures forall other :: other != id ==> s.Get(other) == Get(other)
      ensures s.listeners == listeners && s.nextHandle == nextHandle
      ensures id in listeners ==> s.signals == signals + [listeners[id]]
      ensures id !in listeners ==> s.signals == signals
    {
      var stored := Record(record.content, record.signature, now);
      if id in listeners then
        StoreState(records[id := stored], listeners, nextHandle, signals + [listeners[id]])
      else
        StoreState(records[id := stored], listeners, nextHandle, signals)
    }

    /** Registers a new channel for id, replacing any previous one; the new
        channel is nextHandle, which nothing has used before. */
    function Await(id: Bytes): (s: StoreState)
      ensures Valid() ==> s.Valid()
      ensures Valid() ==> forall other :: other in listeners ==> listeners[other] != nextHandle
      ensures s.listeners == listeners[id := nextHandle]
      ensures s.records == records && s.signals == signals
      ensures s.nextHandle == nextHandle + 1
    {
      StoreState(records, listeners[id := nextHandle], nextHandle + 1, signals)
    }

    /** Removes both the payload and the listener for id. */
    function Delete(id: Bytes): (s: StoreState)
      ensures Valid() ==> s.Valid()
      ensures s.Get(id) == None && id !in s.listeners
      ensures forall other :: other != id ==> s.Get(other) == Get(other)
      ensures forall other :: other != id && other in listeners ==> other in s.listeners && s.listeners[other] == listeners[other]
      ensures s.listeners.Keys == listeners.Keys - {id}
      ensures s.nextHandle == nextHandle && s.signals == signals
    {
      StoreState(records - {id}, listeners - {id}, nextHandle, signals)
    }

    /** The ids whose payload was stored strictly before now - maxAge. */
    function OlderThan(now: int, maxAge: int): set<Bytes>
    {
      set id | id in records && records[id].createdAt < now - maxAge
    }
  }

  const EmptyStore := StoreState(map[], map[], 0, [])

  /** Put then Get returns the payload and signature with createdAt = now, whatever createdAt the caller passed. */
  lemma PutThenGet(s: StoreState, id: Bytes, content: Bytes, signature: Bytes, stamp: int, now: int)
    ensures s.Put(id, Record(content, signature, stamp), now).Get(id) == Some(Record(content, signature, now))
  {
  }

  /** Delete is idempotent and a following Get fails. */
  lemma DeleteIdempotent(s: StoreState, id: Bytes)
    ensures s.Delete(id).Delete(id) == s.Delete(id)
    ensures s.Delete(id).Get(id) == None
  {
  }

  /** Last subscriber wins: after two Awaits on the same id, a Put signals the
      second channel only, and the first one is never signalled. */
  lemma LastSubscriberWins(s: StoreState, id: Bytes, record: Record, now: int)
    requires s.Valid()
    ensures var first := s.nextHandle;
            var second := s.nextHandle + 1;
            var s' := s.Await(id).Await(id).Put(id, record, now);
            && s'.signals == s.signals + [second]
            && first !in s'.signals
  {
    var s' := s.Await(id).Await(id).Put(id, record, now);
    assert s'.signals == s.signals + [s.nextHandle + 1];
  }

  /** The in-memory store; its two maps are updated in place. */
  class InMemStore {
    var records: map<Bytes, Record>
    var listeners: map<Bytes, Handle>
    var nextHandle: nat
    ghost var signals: seq<Handle>

    ghost function State(): StoreState
      reads this
    {
      StoreState(records, listeners, nextHandle, signals)
    }

    ghost predicate Valid()
      reads this
    {
      State().Valid()
    }

    constructor ()
      ensures Valid() && State() == EmptyStore
    {
      records, listeners, nextHandle := map[], map[], 0;
      signals := [];
    }

    method Put(id: Bytes, record: Record, now: int)
      requires Valid()
      modifies this
      ensures Valid()
      ensures State() == old(State()).Put(id, record, now)
    {
      records := records[id := Record(record.content, record.signature, now)];
      if id in listeners {
        signals := signals + [listeners[id]];
      }
    }

    /** A non-destructive lookup: None is the "no response for request" error. */
    method Get(id: Bytes) returns (r: Option<Record>)
      ensures id in records ==> r == Some(records[id])
      ensures id !in records ==> r == None
    {
      if id in records {
        r := Some(records[id]);
      } else {
        r := None;
      }
    }

    method Await(id: Bytes) returns (h: Handle)
      requires Valid()
      modifies this
      ensures Valid()
      ensures h == old(nextHandle)
      ensures State() == old(State()).Await(id)
    {
      h := nextHandle;
      listeners := listeners[id := h];
      nextHandle := nextHandle + 1;
    }

    method Delete(id: Bytes)
      requires Valid()
      modifies this
      ensures Valid()
      ensures State() == old(State()).Delete(id)
    {
      listeners := listeners - {id};
      records := records - {id};
    }

    /** Walks the records once and collects, once each, the ids stored strictly
        before now - maxAge. */
    method GetOlderThan(maxAge: int, now: int) returns (ids: seq<Bytes>)
      ensures forall id :: id in ids <==> id in records && records[id].createdAt < now - maxAge
      ensures forall i, j :: 0 <= i < j < |ids| ==> ids[i] != ids[j]
    {
      ids := [];
      var threshold := now - maxAge;
      var unvisited := records.Keys;
      while unvisited != {}
        invariant unvisited <= records.Keys
        invariant forall id :: id in ids <==> id in records && id !in unvisited && records[id].createdAt < threshold
        invariant forall i, j :: 0 <= i < j < |ids| ==> ids[i] != ids[j]
        decreases |unvisited|
      {
        var id :| id in unvisited;
        if records[id].createdAt < threshold {
          ids := ids + [id];
        }
        unvisited := unvisited - {id};
      }
    }
  }
}

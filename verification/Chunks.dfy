/**
 * Reading one stored object chunk by chunk while its consumer may vanish
 * (internal/natskv/client.go:978-1140). The faults of the store, the reader and the
 * caller's context come from a schedule that may be anything.
 */
module Chunks {
  type Byte = bv8
  type Name = nat
  type Digest = nat

  // A chunk and its stream sequence, which grows along the object.
  datatype Chunk = Chunk(at: nat, data: seq<Byte>)

  ghost predicate Stored(chunks: seq<Chunk>) {
    && (forall c <- chunks :: c.at > 0)
    && (forall i, j | 0 <= i < j < |chunks| :: chunks[i].at < chunks[j].at)
  }

  function Bytes(chunks: seq<Chunk>): seq<Byte> {
    if chunks == [] then [] else Bytes(chunks[..|chunks| - 1]) + chunks[|chunks| - 1].data
  }

  datatype Fault =
    | Served
    | Vanished           // the consumer's inactive threshold ran out
    | Lost(sent: bool)   // no answer; the store may still have done its part

  datatype Pulled = Message(data: seq<Byte>, at: nat, pending: nat) | ConsumerGone | PullFailed

  // The first chunk after a stream sequence.
  function Next(chunks: seq<Chunk>, after: nat): nat {
    if chunks == [] || chunks[|chunks| - 1].at <= after then |chunks|
    else if |chunks| == 1 then 0
    else
      var i := Next(chunks[..|chunks| - 1], after);
      if i < |chunks| - 1 then i else |chunks| - 1
  }

  lemma {:induction false} NextAfterLast(chunks: seq<Chunk>, k: nat)
    requires Stored(chunks) && k <= |chunks|
    ensures Next(chunks, if k == 0 then 0 else chunks[k - 1].at) == k
  {
    var n := |chunks|;
    if n > 0 {
      assert chunks[n - 1] in chunks;
      if k < n {
        var front := chunks[..n - 1];
        assert forall c <- front :: c in chunks;
        NextAfterLast(front, k);
        assert k > 0 ==> front[k - 1] == chunks[k - 1];
      }
    }
  }

  lemma {:induction false} BytesPrefix(chunks: seq<Chunk>, k: nat)
    requires k <= |chunks|
    ensures Bytes(chunks[..k]) <= Bytes(chunks)
    ensures k < |chunks| ==> Bytes(chunks[..k + 1]) == Bytes(chunks[..k]) + chunks[k].data
    decreases |chunks| - k
  {
    if k < |chunks| {
      assert chunks[..k + 1][..k] == chunks[..k];
      BytesPrefix(chunks, k + 1);
    } else {
      assert chunks[..k] == chunks;
    }
  }

  /** The store: each consumer stands before one chunk of the object. */
  class Store {
    const chunks: seq<Chunk>
    const fault: nat -> Fault
    var consumers: map<Name, nat>
    var names: nat
    var tick: nat

    ghost predicate Valid()
      reads this
    {
      Stored(chunks) && (forall name <- consumers :: name < names && consumers[name] <= |chunks|)
    }

    constructor (chunks: seq<Chunk>, fault: nat -> Fault)
      requires Stored(chunks)
      ensures Valid() && this.chunks == chunks && consumers == map[]
    {
      this.chunks, this.fault, consumers, names, tick := chunks, fault, map[], 0, 0;
    }

    method NewName() returns (name: Name)
      requires Valid()
      modifies this`names
      ensures Valid() && name !in consumers && name < names && old(names) <= names
    {
      name := names;
      names := names + 1;
    }

    /** Stands a consumer before the first chunk after a sequence, or fails, having done so or not. */
    method CreateConsumer(name: Name, after: nat) returns (ok: bool)
      requires Valid() && name < names
      modifies this`consumers, this`tick
      ensures Valid() && tick == old(tick) + 1
      ensures ok <==> fault(old(tick)).Served?
      ensures ok ==> consumers == old(consumers)[name := Next(chunks, after)]
    {
      var f := fault(tick);
      tick := tick + 1;
      ok := f.Served?;
      NextInRange(chunks, after);
      if f.Served? || (f.Lost? && f.sent) {
        consumers := consumers[name := Next(chunks, after)];
      }
    }

    /** One pull: the chunk the consumer stands before, and how many are left behind it. */
    method PullChunk(name: Name) returns (r: Pulled)
      requires Valid()
      modifies this`consumers, this`tick
      ensures Valid() && tick == old(tick) + 1
      ensures r.ConsumerGone? <==> name !in old(consumers) || fault(old(tick)).Vanished?
      ensures r.PullFailed? ==> fault(old(tick)).Lost? || old(consumers[name]) == |chunks|
      ensures r.Message? ==>
                && name in old(consumers) && old(consumers[name]) < |chunks|
                && r == Message(chunks[old(consumers[name])].data, chunks[old(consumers[name])].at,
                                |chunks| - old(consumers[name]) - 1)
                && consumers == old(consumers)[name := old(consumers[name]) + 1]
    {
      var f := fault(tick);
      tick := tick + 1;
      if name !in consumers || f.Vanished? {
        consumers := consumers - {name};
        return ConsumerGone;
      }
      var k := consumers[name];
      if k == |chunks| {
        return PullFailed;
      }
      if f.Served? || f.sent {
        consumers := consumers[name := k + 1];
      }
      return if f.Served? then Message(chunks[k].data, chunks[k].at, |chunks| - k - 1) else PullFailed;
    }
  }

  lemma {:induction false} NextInRange(chunks: seq<Chunk>, after: nat)
    ensures Next(chunks, after) <= |chunks|
  {
    if |chunks| > 1 { NextInRange(chunks[..|chunks| - 1], after); }
  }

  /** The pipe to the caller, who may close it in the middle of any write, and whose context may end. */
  class Pipe {
    const room: nat -> nat    // how many bytes each write gets across
    const ended: nat -> bool  // whether the context has ended at each look
    var written: seq<Byte>
    var writes: nat
    var looks: nat

    constructor (room: nat -> nat, ended: nat -> bool)
      ensures written == []
    {
      this.room, this.ended, written, writes, looks := room, ended, [], 0, 0;
    }

    method Write(data: seq<Byte>) returns (ok: bool)
      modifies this`written, this`writes
      ensures ok ==> written == old(written) + data
      ensures |data| <= room(old(writes)) ==> ok
      ensures old(written) <= written <= old(written) + data
    {
      var n := room(writes);
      writes := writes + 1;
      ok := n >= |data|;
      written := written + if ok then data else data[..n];
    }

    method Ended() returns (yes: bool)
      modifies this`looks
      ensures yes == ended(old(looks))
    {
      yes := ended(looks);
      looks := looks + 1;
    }
  }

  datatype Result = Complete | Cause | StoreError | WriteClosed | BadDigest | DigestMismatch

  // The schedule the pump is made for: only consumers vanish, and a new one is answered at once.
  ghost predicate Gentle(store: Store) {
    forall t: nat :: !store.fault(t).Lost?
                  && (store.fault(t).Vanished? ==> store.fault(t + 1).Served? && store.fault(t + 2).Served?)
  }

  // A reader that takes every chunk whole and never leaves.
  ghost predicate Patient(pipe: Pipe, chunks: seq<Chunk>) {
    (forall i :: !pipe.ended(i)) && forall i, c <- chunks :: pipe.room(i) >= |c.data|
  }

  /** One chunk, asked for again from a new consumer, once, when the old one is gone. */
  method Fetch(store: Store, consumer: Name, last: nat, ghost k: nat) returns (now: Name, msg: Pulled)
    requires store.Valid() && k < |store.chunks|
    requires last == if k == 0 then 0 else store.chunks[k - 1].at
    requires consumer in store.consumers ==> store.consumers[consumer] == k
    modifies store
    ensures store.Valid()
    ensures msg.Message? ==>
              && msg == Message(store.chunks[k].data, store.chunks[k].at, |store.chunks| - k - 1)
              && now in store.consumers && store.consumers[now] == k + 1
    ensures Gentle(store) && consumer in old(store.consumers) ==> msg.Message?
  {
    ghost var t0 := store.tick;
    assert Gentle(store) ==>
        && !store.fault(t0).Lost?
        && (store.fault(t0).Vanished? ==> store.fault(t0 + 1).Served? && store.fault(t0 + 2).Served?);
    now := consumer;
    msg := store.PullChunk(now);
    if msg.ConsumerGone? {
      var next := store.NewName();
      var made := store.CreateConsumer(next, last);
      if made {
        NextAfterLast(store.chunks, k);
        now := next;
        msg := store.PullChunk(now);
      }
    }
  }

  /** The pump: every chunk once and in order when it reports success, a prefix of the object whatever
      else it reports, a digest mismatch only over the whole object, and success however often the
      consumer vanishes, as long as each new one answers. */
  method PumpChunks(store: Store, pipe: Pipe, first: Name, digest: seq<Byte> -> Digest, want: seq<Digest>)
    returns (consumer: Name, result: Result)
    requires store.Valid() && pipe.written == [] && store.chunks != []
    requires first in store.consumers ==> store.consumers[first] == 0
    modifies store, pipe
    ensures pipe.written <= Bytes(store.chunks)
    ensures result.Complete? ==> pipe.written == Bytes(store.chunks) && want == [digest(Bytes(store.chunks))]
    ensures result.DigestMismatch? ==> pipe.written == Bytes(store.chunks) && want != [digest(Bytes(store.chunks))]
    ensures (&& Gentle(store) && Patient(pipe, store.chunks) && first in old(store.consumers)
             && want == [digest(Bytes(store.chunks))]) ==> result.Complete?
  {
    hide Stored;
    consumer := first;
    var last := 0;
    var summed: seq<Byte> := [];
    ghost var k: nat := 0;
    while true
      invariant store.Valid() && k < |store.chunks|
      invariant last == if k == 0 then 0 else store.chunks[k - 1].at
      invariant pipe.written == summed == Bytes(store.chunks[..k])
      invariant consumer in store.consumers ==> store.consumers[consumer] == k
      invariant first in old(store.consumers) && Gentle(store) ==> consumer in store.consumers
      decreases |store.chunks| - k
    {
      BytesPrefix(store.chunks, k);
      var ended := pipe.Ended();
      if ended {
        return consumer, Cause;
      }
      var msg;
      consumer, msg := Fetch(store, consumer, last, k);
      if !msg.Message? {
        ended := pipe.Ended();
        return consumer, if ended then Cause else StoreError;
      }
      BytesPrefix(store.chunks, k + 1);
      assert store.chunks[k] in store.chunks;
      var ok := pipe.Write(msg.data);
      if !ok {
        ended := pipe.Ended();
        return consumer, if ended then Cause else WriteClosed;
      }
      summed := summed + msg.data;
      k := k + 1;
      last := msg.at;
      if msg.pending > 0 {
        continue;
      }
      assert store.chunks[..k] == store.chunks;
      // A digest the metadata does not carry in a form this build reads is the empty list.
      if want == [] {
        return consumer, BadDigest;
      }
      if [digest(summed)] != want {
        return consumer, DigestMismatch;
      }
      return consumer, Complete;
    }
  }
}

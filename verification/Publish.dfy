/**
 * One publication as the ordered code it is (internal/pgo/publisher.go:268-484), proved to make
 * exactly the calls, in the order and with the outcome, of the machine in module Publication.
 */
module Publish {
  import opened Wrappers
  import opened JobStore
  import opened Publication

  datatype Request = Write(call: Call) | ReadReceipt(scope: Scope) | ReadRecord(id: Id)

  // What comes back: the answer to a write, or what a read found and whether it succeeded.
  datatype Feedback = Wrote(answer: Answer) | Saw(store: Store, readable: bool)

  function AnswerAt(script: seq<Feedback>, i: nat): Answer {
    if i < |script| && script[i].Wrote? then script[i].answer else Unavailable
  }

  function ReadableAt(script: seq<Feedback>, i: nat): bool {
    i < |script| && script[i].Saw? && script[i].readable
  }

  function StoreAt(script: seq<Feedback>, i: nat): Store {
    if i < |script| && script[i].Saw? then script[i].store else Store(0, map[], map[], map[])
  }

  // ---- The machine, driven by the same answers ----

  ghost function RequestOf(id: Id, p: Pub): Option<Request> {
    if PubCall(id, p).Some? then Some(Write(PubCall(id, p).value))
    else match p.step
      case ReadingReceipt(_, _) => if p.scope.Some? then Some(ReadReceipt(p.scope.value)) else None
      case ReadingHolder(_, _, holder, _) => Some(ReadRecord(holder))
      case _ => None
  }

  ghost function Advanced(id: Id, p: Pub, script: seq<Feedback>, i: nat): Pub {
    if PubCall(id, p).Some? then PubAfter(p, AnswerAt(script, i))
    else PubRead(id, p, StoreAt(script, i), ReadableAt(script, i))
  }

  ghost function Driven(id: Id, p: Pub, script: seq<Feedback>, n: nat): Pub {
    if n == 0 then p else Advanced(id, Driven(id, p, script, n - 1), script, n - 1)
  }

  /** The code has asked what the machine asks, and the machine now stands at p. */
  ghost predicate Along(script: seq<Feedback>, asked: seq<Request>, id: Id, start: Pub, p: Pub) {
    && p == Driven(id, start, script, |asked|)
    && forall i | 0 <= i < |asked| :: RequestOf(id, Driven(id, start, script, i)) == Some(asked[i])
  }

  lemma AlongFurther(script: seq<Feedback>, asked: seq<Request>, id: Id, start: Pub, p: Pub, r: Request)
    requires Along(script, asked, id, start, p) && RequestOf(id, p) == Some(r)
    ensures Along(script, asked + [r], id, start, Advanced(id, p, script, |asked|))
  {
    hide RequestOf, Advanced;
  }

  // What was asked before is still asked first.
  ghost predicate Extends(before: seq<Request>, now: seq<Request>) {
    before < now
  }

  lemma Further(before: seq<Request>, so: seq<Request>, r: Request)
    requires before == so || Extends(before, so)
    ensures Extends(before, so + [r])
  {
  }

  ghost function Begun(svc: Service, scope: Option<Scope>): Pub {
    Pub(svc, scope, CreatingJob, Untracked)
  }

  /** The bucket as one publication meets it: it is asked one thing at a time and answers from a script. */
  class Bucket {
    const script: seq<Feedback>
    var asked: seq<Request>

    constructor (script: seq<Feedback>)
      ensures this.script == script && asked == []
    {
      this.script, asked := script, [];
    }

    ghost predicate At(id: Id, start: Pub, p: Pub)
      reads this
    {
      Along(script, asked, id, start, p)
    }

    method Do(ghost id: Id, ghost start: Pub, ghost p: Pub, call: Call) returns (a: Answer)
      requires At(id, start, p) && PubCall(id, p) == Some(call)
      modifies this
      ensures asked == old(asked) + [Write(call)] && a == AnswerAt(script, |old(asked)|)
      ensures At(id, start, PubAfter(p, a))
    {
      AlongFurther(script, asked, id, start, p, Write(call));
      a := AnswerAt(script, |asked|);
      asked := asked + [Write(call)];
    }

    method Read(ghost id: Id, ghost start: Pub, ghost p: Pub, r: Request) returns (st: Store, readable: bool)
      requires At(id, start, p) && PubCall(id, p).None? && RequestOf(id, p) == Some(r)
      modifies this
      ensures asked == old(asked) + [r]
      ensures st == StoreAt(script, |old(asked)|) && readable == ReadableAt(script, |old(asked)|)
      ensures At(id, start, PubRead(id, p, st, readable))
    {
      AlongFurther(script, asked, id, start, p, r);
      st, readable := StoreAt(script, |asked|), ReadableAt(script, |asked|);
      asked := asked + [r];
    }
  }

  // ---- What the requests and their answers say by themselves ----

  predicate DoneAt(script: seq<Feedback>, i: nat) {
    AnswerAt(script, i).Replied? && AnswerAt(script, i).reply.Done?
  }

  predicate RefusedAt(script: seq<Feedback>, i: nat) {
    AnswerAt(script, i).Replied? && !AnswerAt(script, i).reply.Done?
  }

  function RevAt(script: seq<Feedback>, i: nat): nat {
    if DoneAt(script, i) then AnswerAt(script, i).reply.rev else 0
  }

  predicate LastIs(asked: seq<Request>, call: Call) {
    asked != [] && asked[|asked| - 1] == Write(call)
  }

  /** The last request binds the key: the receipt was created, or reads back as this publication's own. */
  predicate Binds(asked: seq<Request>, script: seq<Feedback>, id: Id, scope: Scope) {
    asked != [] &&
    var i := |asked| - 1;
    || (asked[i] == Write(CreateReceipt(scope, id)) && DoneAt(script, i))
    || (asked[i] == ReadReceipt(scope) && ReadableAt(script, i) && scope in StoreAt(script, i).receipts
        && StoreAt(script, i).receipts[scope].value == id)
  }

  /** The last request is why the key cannot be bound: a retried create without an answer, a create refused
      behind a stale receipt's delete, a receipt that cannot be read, somebody else's whose record stands or
      cannot be read, or a stale one that could not be deleted. */
  predicate Unbindable(asked: seq<Request>, script: seq<Feedback>, scope: Scope, from: nat) {
    from < |asked| &&
    var i := |asked| - 1;
    match asked[i]
    case Write(c) =>
      || (c.CreateReceipt? && i > from && AnswerAt(script, i).Unavailable?)
      || (c.CreateReceipt? && i > from + 1 && asked[i - 1].Write? && asked[i - 1].call.DeleteReceipt?
          && !DoneAt(script, i))
      || (c.DeleteReceipt? && !DoneAt(script, i))
    case ReadReceipt(_) => !ReadableAt(script, i) || scope !in StoreAt(script, i).receipts
    case ReadRecord(holder) => !ReadableAt(script, i) || holder in StoreAt(script, i).jobs
  }

  // The two, as the code meets them.

  lemma CreateBinds(asked: seq<Request>, script: seq<Feedback>, id: Id, scope: Scope)
    requires LastIs(asked, CreateReceipt(scope, id)) && DoneAt(script, |asked| - 1)
    ensures Binds(asked, script, id, scope)
  {
  }

  lemma CreateUnbindable(asked: seq<Request>, script: seq<Feedback>, id: Id, scope: Scope, from: nat)
    requires LastIs(asked, CreateReceipt(scope, id)) && |asked| > from + 1
    requires || AnswerAt(script, |asked| - 1).Unavailable?
             || (!DoneAt(script, |asked| - 1) && |asked| > from + 2
                 && asked[|asked| - 2].Write? && asked[|asked| - 2].call.DeleteReceipt?)
    ensures Unbindable(asked, script, scope, from)
  {
  }

  lemma ReadDecides(asked: seq<Request>, script: seq<Feedback>, id: Id, scope: Scope, from: nat)
    requires from < |asked| && asked[|asked| - 1] == ReadReceipt(scope)
    ensures var st, i := StoreAt(script, |asked| - 1), |asked| - 1;
            && (!ReadableAt(script, i) || scope !in st.receipts ==> Unbindable(asked, script, scope, from))
            && (ReadableAt(script, i) && scope in st.receipts && st.receipts[scope].value == id ==>
                  Binds(asked, script, id, scope))
  {
  }

  lemma HolderUnbindable(asked: seq<Request>, script: seq<Feedback>, scope: Scope, from: nat)
    requires from < |asked|
    requires var i, r := |asked| - 1, asked[|asked| - 1];
             || (r.ReadRecord? && (!ReadableAt(script, i) || r.id in StoreAt(script, i).jobs))
             || (r.Write? && r.call.DeleteReceipt? && !DoneAt(script, i))
    ensures Unbindable(asked, script, scope, from)
  {
  }

  // ---- The code ----

  method Publish(b: Bucket, id: Id, svc: Service, scope: Option<Scope>) returns (outcome: Outcome, claim: Claim)
    requires b.asked == []
    modifies b
    // What it reports, and what becomes of the reservation.
    ensures outcome.Won? <==>
              LastIs(b.asked, UpdateJob(id, Pending, RevAt(b.script, 0))) && DoneAt(b.script, |b.asked| - 1)
    ensures outcome.Busy? <==> DoneAt(b.script, 0) && RefusedAt(b.script, 1)
    ensures claim.Returned? <==>
              RefusedAt(b.script, 0)
              || (DoneAt(b.script, 0) && RefusedAt(b.script, 1) && AnswerAt(b.script, 2).Replied?)
    ensures claim.Tracked? <==> !claim.Returned?
    // What it asks for.
    ensures |b.asked| > 0 && b.asked[0] == Write(CreateJob(id))
    ensures if !DoneAt(b.script, 0) then |b.asked| == 1 else |b.asked| > 1 && b.asked[1] == Write(CreateActive(svc, id))
    ensures DoneAt(b.script, 0) && AnswerAt(b.script, 1).Unavailable? ==> |b.asked| == 2
    ensures DoneAt(b.script, 0) && RefusedAt(b.script, 1) ==>
              b.asked[2..] == [Write(DeleteJob(id, RevAt(b.script, 0)))]
    ensures DoneAt(b.script, 0) && DoneAt(b.script, 1) && scope.None? ==>
              b.asked[2..] == [Write(UpdateJob(id, Pending, RevAt(b.script, 0)))]
    ensures DoneAt(b.script, 0) && DoneAt(b.script, 1) && scope.Some? ==>
              || (&& LastIs(b.asked, UpdateJob(id, Pending, RevAt(b.script, 0)))
                  && Binds(b.asked[..|b.asked| - 1], b.script, id, scope.value))
              || (&& LastIs(b.asked, DeleteActive(svc, RevAt(b.script, 1)))
                  && LastIs(b.asked[..|b.asked| - 1], DeleteJob(id, RevAt(b.script, 0)))
                  && Unbindable(b.asked[..|b.asked| - 2], b.script, scope.value, 2))
    // The machine's own account of it.
    ensures b.At(id, Begun(svc, scope), Pub(svc, scope, Ended(outcome), claim))
         || (outcome.Errored? && b.At(id, Begun(svc, scope), Pub(svc, scope, Withdrawn, claim)))
  {
    ghost var start := Begun(svc, scope);
    claim := Untracked;
    var a := b.Do(id, start, start, CreateJob(id));
    hide Along, Binds, Unbindable;
    if a.Unavailable? {
      return Errored, Tracked;
    }
    if !a.reply.Done? {
      return Errored, Returned;
    }
    var rev := a.reply.rev;
    assert DoneAt(b.script, 0) && rev == RevAt(b.script, 0);
    a := b.Do(id, start, Pub(svc, scope, CreatingActive(rev), Untracked), CreateActive(svc, id));
    if a.Replied? && !a.reply.Done? {
      claim := DiscardLostRecord(b, id, svc, scope, rev);
      return Busy, claim;
    }
    claim := Tracked;
    if a.Unavailable? {
      return Errored, claim;
    }
    var activeRev := a.reply.rev;
    assert DoneAt(b.script, 1) && activeRev == RevAt(b.script, 1);
    assert b.asked == [Write(CreateJob(id)), Write(CreateActive(svc, id))];
    if scope.Some? {
      var bound := CreateReceiptFor(b, id, svc, scope, rev, activeRev);
      if !bound {
        ghost var tried := b.asked;
        Withdraw(b, id, svc, scope, rev, activeRev);
        assert b.asked[..|b.asked| - 2] == tried;
        return Errored, claim;
      }
    }
    ghost var bound := b.asked;
    a := b.Do(id, start, Pub(svc, scope, Committing(rev), Tracked), UpdateJob(id, Pending, rev));
    assert b.asked[..|b.asked| - 1] == bound;
    if a.Unavailable? || !a.reply.Done? {
      return Errored, claim;
    }
    return Won, claim;
  }

  method DiscardLostRecord(b: Bucket, id: Id, svc: Service, scope: Option<Scope>, rev: nat) returns (claim: Claim)
    requires b.At(id, Begun(svc, scope), Pub(svc, scope, Discarding(rev), Untracked))
    modifies b
    ensures b.At(id, Begun(svc, scope), Pub(svc, scope, Ended(Busy), claim))
    ensures b.asked == old(b.asked) + [Write(DeleteJob(id, rev))]
    ensures claim == if AnswerAt(b.script, |old(b.asked)|).Replied? then Returned else Tracked
  {
    hide Along;
    var a := b.Do(id, Begun(svc, scope), Pub(svc, scope, Discarding(rev), Untracked), DeleteJob(id, rev));
    if a.Unavailable? {
      return Tracked;
    }
    return Returned;
  }

  method CreateReceiptFor(b: Bucket, id: Id, svc: Service, scope: Option<Scope>, rev: nat, activeRev: nat)
    returns (bound: bool)
    requires scope.Some?
    requires b.At(id, Begun(svc, scope), Pub(svc, scope, CreatingReceipt(rev, activeRev, First), Tracked))
    modifies b
    ensures b.At(id, Begun(svc, scope),
                 Pub(svc, scope, if bound then Committing(rev) else WithdrawingJob(rev, activeRev), Tracked))
    ensures Extends(old(b.asked), b.asked)
    ensures if bound then Binds(b.asked, b.script, id, scope.value)
            else Unbindable(b.asked, b.script, scope.value, |old(b.asked)|)
  {
    hide Along, Binds, Unbindable, Extends;
    ghost var first, from, r := b.asked, |b.asked|, Write(CreateReceipt(scope.value, id));
    Further(first, b.asked, r);
    ghost var start := Begun(svc, scope);
    ghost var p := Pub(svc, scope, CreatingReceipt(rev, activeRev, First), Tracked);
    var a := b.Do(id, start, p, CreateReceipt(scope.value, id));
    if a.Unavailable? {
      Further(first, b.asked, r);
      a := b.Do(id, start, p.(step := CreatingReceipt(rev, activeRev, Second)), CreateReceipt(scope.value, id));
    }
    if a.Unavailable? {
      CreateUnbindable(b.asked, b.script, id, scope.value, from);
      return false;
    }
    if a.reply.Done? {
      CreateBinds(b.asked, b.script, id, scope.value);
      return true;
    }
    Further(first, b.asked, ReadReceipt(scope.value));
    var st, readable := b.Read(id, start, p.(step := ReadingReceipt(rev, activeRev)), ReadReceipt(scope.value));
    ReadDecides(b.asked, b.script, id, scope.value, from);
    if !readable || scope.value !in st.receipts {
      return false;
    }
    var existing := st.receipts[scope.value];
    if existing.value == id {
      return true;
    }
    p := p.(step := ReadingHolder(rev, activeRev, existing.value, existing.rev));
    Further(first, b.asked, ReadRecord(existing.value));
    st, readable := b.Read(id, start, p, ReadRecord(existing.value));
    if !readable || existing.value in st.jobs {
      HolderUnbindable(b.asked, b.script, scope.value, from);
      return false;
    }
    p := p.(step := DroppingStale(rev, activeRev, existing.value, existing.rev));
    Further(first, b.asked, Write(DeleteReceipt(scope.value, existing.rev)));
    a := b.Do(id, start, p, DeleteReceipt(scope.value, existing.rev));
    if a.Unavailable? || !a.reply.Done? {
      HolderUnbindable(b.asked, b.script, scope.value, from);
      return false;
    }
    Further(first, b.asked, r);
    a := b.Do(id, start, p.(step := CreatingReceipt(rev, activeRev, AfterStale)), CreateReceipt(scope.value, id));
    if a.Replied? && a.reply.Done? {
      CreateBinds(b.asked, b.script, id, scope.value);
      return true;
    }
    CreateUnbindable(b.asked, b.script, id, scope.value, from);
    return false;
  }

  method Withdraw(b: Bucket, id: Id, svc: Service, scope: Option<Scope>, rev: nat, activeRev: nat)
    requires b.At(id, Begun(svc, scope), Pub(svc, scope, WithdrawingJob(rev, activeRev), Tracked))
    modifies b
    ensures b.At(id, Begun(svc, scope), Pub(svc, scope, Withdrawn, Tracked))
    ensures b.asked == old(b.asked) + [Write(DeleteJob(id, rev)), Write(DeleteActive(svc, activeRev))]
  {
    hide Along;
    var p := Pub(svc, scope, WithdrawingJob(rev, activeRev), Tracked);
    var _ := b.Do(id, Begun(svc, scope), p, DeleteJob(id, rev));
    var _ := b.Do(id, Begun(svc, scope), p.(step := WithdrawingActive(activeRev)), DeleteActive(svc, activeRev));
  }
}

/**
 * What the publication protocol gets done: where nothing stands in its way a publication ends won,
 * keyed or not, through a lost receipt create and over a stale receipt, and where its Service is
 * taken it ends busy with nothing left behind (internal/pgo/publisher.go:268-484).
 */
module PublicationRuns {
  import opened Wrappers
  import opened JobStore
  import opened Publication
  import opened PublicationSafety

  // Some actions, one after the other.
  lemma {:induction false} RunSplits(s: State, before: seq<Action>, after: seq<Action>)
    ensures Run(s, before + after) == Run(Run(s, before), after)
    decreases |before|
  {
    hide Step;
    if before == [] {
      assert before + after == after;
    } else {
      assert (before + after)[1..] == before[1..] + after;
      RunSplits(Step(s, before[0]), before[1..], after);
    }
  }

  // One publication takes so many answered steps.
  function Goes(s: State, id: Id, n: nat): State {
    if n == 0 then s else Step(Goes(s, id, n - 1), Action.PubStep(id, Answered))
  }

  function Turns(id: Id, n: nat): seq<Action> {
    seq(n, _ => Action.PubStep(id, Answered))
  }

  lemma {:induction false} TurnsGo(s: State, id: Id, n: nat)
    ensures Run(s, Turns(id, n)) == Goes(s, id, n)
  {
    hide Step;
    if n > 0 {
      TurnsGo(s, id, n - 1);
      assert Turns(id, n) == Turns(id, n - 1) + [Action.PubStep(id, Answered)];
      RunSplits(s, Turns(id, n - 1), [Action.PubStep(id, Answered)]);
      OneStep(Run(s, Turns(id, n - 1)), Action.PubStep(id, Answered));
    }
  }

  lemma OneStep(s: State, a: Action)
    ensures Run(s, [a]) == Step(s, a)
  {
    assert Run(Step(s, a), []) == Step(s, a);
  }

  // How a publication stands: its stage, its record, and its Service's key if it holds it.
  ghost predicate Stands(s: State, id: Id, p: Pub, rev: nat, held: bool) {
    && id in s.pubs && s.pubs[id] == p && id in s.store.jobs && s.store.jobs[id] == Versioned(Initializing, rev)
    && (if held then HoldsActive(s, id) else !HoldsActive(s, id))
  }

  ghost predicate Published(s: State, id: Id) {
    && id in s.pubs && s.pubs[id].step == Ended(Won) && s.pubs[id].claim.Tracked?
    && id in s.store.jobs && s.store.jobs[id].value == Pending && HoldsActive(s, id) && HoldsReceipt(s, id)
  }

  lemma Begins(s: State, id: Id, svc: Service, scope: Option<Scope>)
    requires id !in s.pubs
    ensures Step(s, Publish(id, svc, scope)) == s.(pubs := s.pubs[id := Pub(svc, scope, CreatingJob, Untracked)])
  {
  }

  lemma Created(s: State, id: Id, p: Pub)
    requires id in s.pubs && s.pubs[id] == p && p.step.CreatingJob? && id !in s.store.jobs && !HoldsActive(s, id)
    ensures var t, rev := Step(s, Action.PubStep(id, Answered)), s.store.rev + 1;
            && Stands(t, id, p.(step := CreatingActive(rev)), rev, false)
            && t.store.active == s.store.active && t.store.receipts == s.store.receipts
            && t.store.jobs.Keys == s.store.jobs.Keys + {id} && t.inflight == s.inflight
  {
  }

  lemma Claims(s: State, id: Id, p: Pub, rev: nat)
    requires Stands(s, id, p, rev, false) && p.step == CreatingActive(rev) && p.svc !in s.store.active
    ensures var t := Step(s, Action.PubStep(id, Answered));
            var next := if p.scope.Some? then CreatingReceipt(rev, s.store.rev + 1, First) else Committing(rev);
            && Stands(t, id, p.(step := next, claim := Tracked), rev, true)
            && t.store.receipts == s.store.receipts && t.store.jobs == s.store.jobs && t.inflight == s.inflight
            && t.store.active[p.svc].rev == s.store.rev + 1
  {
  }

  lemma Binds(s: State, id: Id, p: Pub, rev: nat)
    requires Stands(s, id, p, rev, true) && p.scope.Some? && p.scope.value !in s.store.receipts
    requires p.step.CreatingReceipt? && p.step.rev == rev
    ensures var t := Step(s, Action.PubStep(id, Answered));
            Stands(t, id, p.(step := Committing(rev)), rev, true) && HoldsReceipt(t, id)
  {
  }

  lemma Commits(s: State, id: Id, p: Pub, rev: nat)
    requires Stands(s, id, p, rev, true) && p.step == Committing(rev) && p.claim.Tracked? && HoldsReceipt(s, id)
    ensures Published(Step(s, Action.PubStep(id, Answered)), id)
  {
  }

  // Where a publication stands once it has its Service's key.
  lemma GoesFar(s: State, id: Id, svc: Service, scope: Option<Scope>) returns (t: State, rev: nat)
    requires Inv(s) && id !in s.pubs && svc !in s.store.active
    ensures t == Goes(Step(s, Publish(id, svc, scope)), id, 2) && t.inflight == s.inflight
    ensures t.store.receipts == s.store.receipts && t.store.jobs.Keys == s.store.jobs.Keys + {id}
    ensures id in t.pubs && t.pubs[id].svc == svc && t.pubs[id].scope == scope && t.pubs[id].claim.Tracked?
    ensures Stands(t, id, t.pubs[id], rev, true)
    ensures if scope.None? then t.pubs[id].step == Committing(rev)
            else t.pubs[id].step.CreatingReceipt? && t.pubs[id].step.rev == rev && t.pubs[id].step.attempt.First?
                 && t.pubs[id].step.activeRev == t.store.active[svc].rev
  {
    NothingYet(s, id);
    Begins(s, id, svc, scope);
    hide Inv, Step;
    var s1 := Step(s, Publish(id, svc, scope));
    rev := s1.store.rev + 1;
    Created(s1, id, s1.pubs[id]);
    var s2 := Step(s1, Action.PubStep(id, Answered));
    Claims(s2, id, s2.pubs[id], rev);
    t := Step(s2, Action.PubStep(id, Answered));
    assert Goes(s1, id, 1) == s2 by { assert Goes(s1, id, 0) == s1; }
  }

  lemma NothingYet(s: State, id: Id)
    requires Inv(s) && id !in s.pubs
    ensures id !in s.store.jobs && forall svc <- s.store.active :: s.store.active[svc].value != id
  {
  }

  /** Left to itself over free keys, a publication ends won: its record pending, its Service's key and its
      receipt naming it. Keyed or not. */
  lemma FreeKeysWin(actions: seq<Action>, id: Id, svc: Service, scope: Option<Scope>)
    requires var s := Run(Init(), actions);
             id !in s.pubs && svc !in s.store.active && (scope.Some? ==> scope.value !in s.store.receipts)
    ensures var n := if scope.Some? then 4 else 3;
            Published(Run(Run(Init(), actions), [Publish(id, svc, scope)] + Turns(id, n)), id)
  {
    EveryRunSafe(actions);
    var s, n := Run(Init(), actions), if scope.Some? then 4 else 3;
    hide Run, Inv;
    var s1 := Step(s, Publish(id, svc, scope));
    RunSplits(s, [Publish(id, svc, scope)], Turns(id, n));
    OneStep(s, Publish(id, svc, scope));
    TurnsGo(s1, id, n);
    var t, rev := GoesFar(s, id, svc, scope);
    hide Step;
    if scope.Some? {
      Binds(t, id, t.pubs[id], rev);
      var u := Goes(s1, id, 3);
      Commits(u, id, u.pubs[id], rev);
    } else {
      Commits(t, id, t.pubs[id], rev);
    }
  }

  // ---- Receipts in the way ----

  // What a keyed publication meets at its receipt's key while it holds its Service.
  ghost predicate Meets(s: State, id: Id, p: Pub, rev: nat, receipt: Option<Id>) {
    && Stands(s, id, p, rev, true) && p.scope.Some? && p.claim.Tracked?
    && (receipt.Some? <==> p.scope.value in s.store.receipts)
    && (receipt.Some? ==> s.store.receipts[p.scope.value].value == receipt.value)
  }

  lemma LosesReceipt(s: State, id: Id, p: Pub, rev: nat, ticket: nat)
    requires Meets(s, id, p, rev, None) && ticket !in s.inflight
    requires p.step.CreatingReceipt? && p.step.rev == rev && p.step.attempt.First?
    ensures var t := Step(Step(s, Action.PubStep(id, Lost(ticket))), Land(ticket));
            && t.store.jobs == s.store.jobs
            && Meets(t, id, p.(step := CreatingReceipt(rev, p.step.activeRev, Second)), rev, Some(id))
  {
  }

  lemma MeetsReceipt(s: State, id: Id, p: Pub, rev: nat, holder: Id)
    requires Meets(s, id, p, rev, Some(holder))
    requires p.step.CreatingReceipt? && p.step.rev == rev && !p.step.attempt.AfterStale?
    ensures var t := Step(s, Action.PubStep(id, Answered));
            && t.store == s.store
            && Meets(t, id, p.(step := ReadingReceipt(rev, p.step.activeRev)), rev, Some(holder))
  {
  }

  lemma ReadsReceipt(s: State, id: Id, p: Pub, rev: nat, holder: Id)
    requires Meets(s, id, p, rev, Some(holder)) && p.step.ReadingReceipt? && p.step.rev == rev
    ensures var t := Step(s, Action.PubStep(id, Answered));
            var next := if holder == id then Committing(rev)
                        else ReadingHolder(rev, p.step.activeRev, holder, s.store.receipts[p.scope.value].rev);
            t.store == s.store && Meets(t, id, p.(step := next), rev, Some(holder))
  {
  }

  lemma ReadsHolder(s: State, id: Id, p: Pub, rev: nat, holder: Id)
    requires Meets(s, id, p, rev, Some(holder)) && p.step.ReadingHolder? && p.step.rev == rev && p.step.holder == holder
    ensures var t := Step(s, Action.PubStep(id, Answered));
            var next := if holder in s.store.jobs then WithdrawingJob(rev, p.step.activeRev)
                        else DroppingStale(rev, p.step.activeRev, holder, p.step.receiptRev);
            t.store == s.store && Meets(t, id, p.(step := next), rev, Some(holder))
  {
  }

  lemma DropsStale(s: State, id: Id, p: Pub, rev: nat, holder: Id)
    requires Meets(s, id, p, rev, Some(holder)) && p.step.DroppingStale? && p.step.rev == rev
    requires p.step.receiptRev == s.store.receipts[p.scope.value].rev
    ensures var t := Step(s, Action.PubStep(id, Answered));
            Meets(t, id, p.(step := CreatingReceipt(rev, p.step.activeRev, AfterStale)), rev, None)
  {
  }

  /** A receipt create that is lost and lands is found by the retry and read back as the publication's own:
      it ends won. */
  lemma LostReceiptWins(actions: seq<Action>, id: Id, svc: Service, scope: Scope, ticket: nat)
    requires var s := Run(Init(), actions);
             id !in s.pubs && svc !in s.store.active && scope !in s.store.receipts && ticket !in s.inflight
    ensures var lands := [Action.PubStep(id, Lost(ticket)), Land(ticket)];
            var s := Run(Init(), actions);
            Published(Run(s, [Publish(id, svc, Some(scope))] + (Turns(id, 2) + (lands + Turns(id, 3)))), id)
  {
    EveryRunSafe(actions);
    var s, lost, lands := Run(Init(), actions), Action.PubStep(id, Lost(ticket)), Land(ticket);
    hide Run, Inv;
    var s1 := Step(s, Publish(id, svc, Some(scope)));
    RunSplits(s, [Publish(id, svc, Some(scope))], Turns(id, 2) + ([lost, lands] + Turns(id, 3)));
    OneStep(s, Publish(id, svc, Some(scope)));
    RunSplits(s1, Turns(id, 2), [lost, lands] + Turns(id, 3));
    TurnsGo(s1, id, 2);
    var t, rev := GoesFar(s, id, svc, Some(scope));
    hide Step;
    LosesReceipt(t, id, t.pubs[id], rev, ticket);
    var u := Step(Step(t, lost), lands);
    assert [lost, lands] == [lost] + [lands];
    RunSplits(t, [lost, lands], Turns(id, 3));
    RunSplits(t, [lost], [lands]);
    OneStep(t, lost);
    OneStep(Step(t, lost), lands);
    TurnsGo(u, id, 3);
    MeetsReceipt(u, id, u.pubs[id], rev, id);
    var u1 := Step(u, Action.PubStep(id, Answered));
    ReadsReceipt(u1, id, u1.pubs[id], rev, id);
    var u2 := Step(u1, Action.PubStep(id, Answered));
    Commits(u2, id, u2.pubs[id], rev);
    assert Goes(u, id, 0) == u && Goes(u, id, 1) == u1 && Goes(u, id, 2) == u2;
  }

  // From its Service's key to what the holder of its receipt's key decides.
  lemma MeetsHolder(s: State, id: Id, svc: Service, scope: Scope) returns (t: State, rev: nat)
    requires Inv(s) && id !in s.pubs && svc !in s.store.active && scope in s.store.receipts
    ensures var holder := s.store.receipts[scope].value;
            && t == Goes(Step(s, Publish(id, svc, Some(scope))), id, 5)
            && id in t.pubs && t.pubs[id].svc == svc && t.pubs[id].scope == Some(scope)
            && Meets(t, id, t.pubs[id], rev, Some(holder))
            && if holder in s.store.jobs then
                 t.pubs[id].step.WithdrawingJob? && t.pubs[id].step.rev == rev
                 && t.store.active[svc].rev == t.pubs[id].step.activeRev
               else
                 t.pubs[id].step.DroppingStale? && t.pubs[id].step.rev == rev
                 && t.pubs[id].step.receiptRev == t.store.receipts[scope].rev
  {
    var holder := s.store.receipts[scope].value;
    assert holder != id by { StoreOkOf(s); }
    var t2;
    t2, rev := GoesFar(s, id, svc, Some(scope));
    hide Inv, Step;
    MeetsReceipt(t2, id, t2.pubs[id], rev, holder);
    var t3 := Step(t2, Action.PubStep(id, Answered));
    ReadsReceipt(t3, id, t3.pubs[id], rev, holder);
    var t4 := Step(t3, Action.PubStep(id, Answered));
    ReadsHolder(t4, id, t4.pubs[id], rev, holder);
    t := Step(t4, Action.PubStep(id, Answered));
    var s1 := Step(s, Publish(id, svc, Some(scope)));
    assert Goes(s1, id, 3) == t3 && Goes(s1, id, 4) == t4 && Goes(s1, id, 5) == t;
  }

  lemma StoreOkOf(s: State)
    requires Inv(s)
    ensures forall scope <- s.store.receipts :: s.store.receipts[scope].value in s.pubs
  {
  }

  /** A receipt whose record is gone is stale: it is replaced, and the publication ends won. */
  lemma StaleReceiptReplaced(actions: seq<Action>, id: Id, svc: Service, scope: Scope)
    requires var s := Run(Init(), actions);
             && id !in s.pubs && svc !in s.store.active
             && scope in s.store.receipts && s.store.receipts[scope].value !in s.store.jobs
    ensures Published(Run(Run(Init(), actions), [Publish(id, svc, Some(scope))] + Turns(id, 8)), id)
  {
    EveryRunSafe(actions);
    var s := Run(Init(), actions);
    hide Run, Inv;
    var s1 := Step(s, Publish(id, svc, Some(scope)));
    RunSplits(s, [Publish(id, svc, Some(scope))], Turns(id, 8));
    OneStep(s, Publish(id, svc, Some(scope)));
    TurnsGo(s1, id, 8);
    var t, rev := MeetsHolder(s, id, svc, scope);
    hide Step;
    DropsStale(t, id, t.pubs[id], rev, s.store.receipts[scope].value);
    var t1 := Step(t, Action.PubStep(id, Answered));
    Binds(t1, id, t1.pubs[id], rev);
    var t2 := Step(t1, Action.PubStep(id, Answered));
    Commits(t2, id, t2.pubs[id], rev);
    assert Goes(s1, id, 6) == t1 && Goes(s1, id, 7) == t2;
  }

  // Nothing of a publication is left in the bucket.
  ghost predicate LeavesNothing(s: State, id: Id, svc: Service) {
    id !in s.store.jobs && !(svc in s.store.active && s.store.active[svc].value == id)
  }

  lemma Withdraws(s: State, id: Id, p: Pub, rev: nat, svc: Service)
    requires Stands(s, id, p, rev, true) && p.svc == svc && p.step.WithdrawingJob? && p.step.rev == rev
    requires p.step.activeRev == s.store.active[svc].rev
    ensures var t := Step(Step(s, Action.PubStep(id, Answered)), Action.PubStep(id, Answered));
            LeavesNothing(t, id, svc) && id in t.pubs && t.pubs[id].step.Withdrawn?
  {
  }

  /** A receipt whose record stands is kept: the publication withdraws both its record and its key. */
  lemma BoundKeyWithdraws(actions: seq<Action>, id: Id, svc: Service, scope: Scope)
    requires var s := Run(Init(), actions);
             && id !in s.pubs && svc !in s.store.active
             && scope in s.store.receipts && s.store.receipts[scope].value in s.store.jobs
    ensures var t := Run(Run(Init(), actions), [Publish(id, svc, Some(scope))] + Turns(id, 7));
            LeavesNothing(t, id, svc) && id in t.pubs && t.pubs[id].step.Withdrawn?
  {
    EveryRunSafe(actions);
    var s := Run(Init(), actions);
    hide Run, Inv;
    var s1 := Step(s, Publish(id, svc, Some(scope)));
    RunSplits(s, [Publish(id, svc, Some(scope))], Turns(id, 7));
    OneStep(s, Publish(id, svc, Some(scope)));
    TurnsGo(s1, id, 7);
    var t, rev := MeetsHolder(s, id, svc, scope);
    hide Step;
    Withdraws(t, id, t.pubs[id], rev, svc);
    assert Goes(s1, id, 6) == Step(t, Action.PubStep(id, Answered));
  }

  lemma Discards(s: State, id: Id, p: Pub, rev: nat)
    requires Stands(s, id, p, rev, false) && p.step == CreatingActive(rev) && p.svc in s.store.active
    ensures var t := Step(Step(s, Action.PubStep(id, Answered)), Action.PubStep(id, Answered));
            LeavesNothing(t, id, p.svc) && id in t.pubs && t.pubs[id].step == Ended(Busy) && t.pubs[id].claim.Returned?
  {
  }

  /** Where the Service is taken a publication ends busy, its record discarded and its reservation returned. */
  lemma TakenServiceIsBusy(actions: seq<Action>, id: Id, svc: Service, scope: Option<Scope>)
    requires var s := Run(Init(), actions); id !in s.pubs && svc in s.store.active
    ensures var t := Run(Run(Init(), actions), [Publish(id, svc, scope)] + Turns(id, 3));
            LeavesNothing(t, id, svc) && id in t.pubs && t.pubs[id].step == Ended(Busy) && t.pubs[id].claim.Returned?
  {
    EveryRunSafe(actions);
    var s := Run(Init(), actions);
    hide Run;
    var s1 := Step(s, Publish(id, svc, scope));
    RunSplits(s, [Publish(id, svc, scope)], Turns(id, 3));
    OneStep(s, Publish(id, svc, scope));
    TurnsGo(s1, id, 3);
    NothingYet(s, id);
    Begins(s, id, svc, scope);
    hide Inv, Step;
    Created(s1, id, s1.pubs[id]);
    var s2 := Step(s1, Action.PubStep(id, Answered));
    Discards(s2, id, s2.pubs[id], s1.store.rev + 1);
    assert Goes(s1, id, 0) == s1 && Goes(s1, id, 1) == s2;
  }

  // ---- The other writers ----

  // One process moves one record, at the revision it read.
  lemma Moves(s: State, pid: nat, id: Id, who: Actor, to: Phase)
    requires pid in s.procs && id in s.store.jobs && Permits(who, s.store.jobs[id].value, to)
    requires s.procs[pid] == Moving(id, who, 0, s.store.jobs[id].rev, s.store.jobs[id].value)
    ensures var t := Step(s, ProcStep(pid, to, Answered));
            && id in t.store.jobs && t.store.jobs[id].value == to && pid in t.procs
            && t.procs[pid] == (if to.Running? then Moving(id, Owner, 0, t.store.jobs[id].rev, Running)
                                else if who.Expirer? then Finished else Releasing(id))
            && t.store.active == s.store.active && t.pubs == s.pubs
  {
  }

  lemma Frees(s: State, pid: nat, id: Id, to: Phase)
    requires pid in s.procs && s.procs[pid] == Releasing(id) && HoldsActive(s, id)
    ensures var t := Step(Step(s, ProcStep(pid, to, Answered)), ProcStep(pid, to, Answered));
            t.store.jobs == s.store.jobs && s.pubs[id].svc !in t.store.active
  {
  }

  lemma Observes(s: State, pid: nat, id: Id, who: Actor, to: Phase)
    requires pid !in s.procs && id in s.store.jobs && !who.Owner?
    ensures var t := Step(Step(s, Start(pid, Observing(id, who, 0))), ProcStep(pid, to, Answered));
            && t == ProcAt(s, pid, t.procs[pid])
            && t.procs[pid] == Moving(id, who, 0, s.store.jobs[id].rev, s.store.jobs[id].value)
  {
    var s1 := Step(s, Start(pid, Observing(id, who, 0)));
    var t := Step(s1, ProcStep(pid, to, Answered));
    assert t.procs == s.procs[pid := t.procs[pid]];
  }

  /** An uncontested cancel of a live Collection ends it cancelled, and its Service is free again. */
  lemma CancelFreesService(actions: seq<Action>, id: Id, pid: nat)
    requires var s := Run(Init(), actions); id in s.store.jobs && Live(s.store.jobs[id].value) && pid !in s.procs
    ensures var s, turn := Run(Init(), actions), ProcStep(pid, Cancelled, Answered);
            var t := Step(Step(Step(Step(Step(s, Start(pid, Observing(id, Canceller, 0))), turn), turn), turn), turn);
            && id in s.pubs && s.pubs[id].svc !in t.store.active
            && id in t.store.jobs && t.store.jobs[id].value == Cancelled
  {
    EveryRunSafe(actions);
    var s, turn := Run(Init(), actions), ProcStep(pid, Cancelled, Answered);
    hide Run, Step;
    assert HoldsActive(s, id);
    hide Inv;
    Observes(s, pid, id, Canceller, Cancelled);
    var s2 := Step(Step(s, Start(pid, Observing(id, Canceller, 0))), turn);
    Moves(s2, pid, id, Canceller, Cancelled);
    Frees(Step(s2, turn), pid, id, Cancelled);
  }

  /** A pending Collection that is claimed and whose owner finishes it ends completed, and its Service is free. */
  lemma OwnerCompletes(actions: seq<Action>, id: Id, pid: nat)
    requires var s := Run(Init(), actions); id in s.store.jobs && s.store.jobs[id].value.Pending? && pid !in s.procs
    ensures var s, claim := Run(Init(), actions), ProcStep(pid, Running, Answered);
            var turn := ProcStep(pid, Completed, Answered);
            var u := Step(Step(Step(s, Start(pid, Observing(id, Scanner, 0))), claim), claim);
            var t := Step(Step(Step(u, turn), turn), turn);
            && id in s.pubs && s.pubs[id].svc !in t.store.active
            && id in t.store.jobs && t.store.jobs[id].value == Completed
  {
    EveryRunSafe(actions);
    var s, claim := Run(Init(), actions), ProcStep(pid, Running, Answered);
    var turn := ProcStep(pid, Completed, Answered);
    hide Run, Step;
    assert HoldsActive(s, id);
    hide Inv;
    Observes(s, pid, id, Scanner, Running);
    var s2 := Step(Step(s, Start(pid, Observing(id, Scanner, 0))), claim);
    Moves(s2, pid, id, Scanner, Running);
    var u := Step(s2, claim);
    Moves(u, pid, id, Owner, Completed);
    Frees(Step(u, turn), pid, id, Completed);
  }

  lemma Retires(s: State, pid: nat, id: Id, scope: Scope)
    requires pid in s.procs && s.procs[pid] == Retiring(id) && id in s.store.jobs && Retirable(s.store.jobs[id].value)
    requires id in s.pubs && s.pubs[id].scope == Some(scope)
    requires scope in s.store.receipts && s.store.receipts[scope].value == id
    ensures var turn := ProcStep(pid, Expired, Answered);
            var t := Step(Step(Step(Step(s, turn), turn), turn), turn);
            id !in t.store.jobs && scope !in t.store.receipts
  {
    var turn := ProcStep(pid, Expired, Answered);
    var s1 := Step(s, turn);
    assert s1.procs[pid] == RetiringAt(id, s.store.jobs[id].rev, s.store.jobs[id].value) && s1.store == s.store;
    var s2 := Step(s1, turn);
    assert s2.procs[pid] == DroppingReceipt(id) && s2.store.receipts == s.store.receipts && s2.pubs == s.pubs;
    assert id !in s2.store.jobs;
    hide Step;
    DropsReceipt(s2, pid, id, scope);
  }

  lemma DropsReceipt(s: State, pid: nat, id: Id, scope: Scope)
    requires pid in s.procs && s.procs[pid] == DroppingReceipt(id) && id in s.pubs && s.pubs[id].scope == Some(scope)
    requires scope in s.store.receipts && s.store.receipts[scope].value == id
    ensures var turn := ProcStep(pid, Expired, Answered);
            var t := Step(Step(s, turn), turn);
            t.store.jobs == s.store.jobs && scope !in t.store.receipts
  {
  }

  /** The sweeper retires a finished record together with the receipt that names it. */
  lemma RetiresWithReceipt(actions: seq<Action>, id: Id, scope: Scope, pid: nat)
    requires var s := Run(Init(), actions);
             && id in s.store.jobs && Retirable(s.store.jobs[id].value) && pid !in s.procs
             && id in s.pubs && s.pubs[id].scope == Some(scope)
             && scope in s.store.receipts && s.store.receipts[scope].value == id
    ensures var s, turn := Run(Init(), actions), ProcStep(pid, Expired, Answered);
            var t := Step(Step(Step(Step(Step(s, Start(pid, Retiring(id))), turn), turn), turn), turn);
            id !in t.store.jobs && scope !in t.store.receipts
  {
    var s := Run(Init(), actions);
    hide Run;
    Retires(Step(s, Start(pid, Retiring(id))), pid, id, scope);
  }

  /** A keyed request that finds its receipt naming a record that is gone, or that was failed before it was
      published, clears the receipt; together with the lookup that finds its binding, exactly then. */
  lemma LookupClearsStale(actions: seq<Action>, scope: Scope, pid: nat)
    requires var s := Run(Init(), actions);
             && pid !in s.procs && scope in s.store.receipts
             && var holder := s.store.receipts[scope].value;
                holder !in s.store.jobs || s.store.jobs[holder].value == Failed(NotPublished)
    ensures var s, turn := Run(Init(), actions), ProcStep(pid, Expired, Answered);
            var t := Step(Step(Step(Step(s, Start(pid, LookingUp(scope, false, 0))), turn), turn), turn);
            scope !in t.store.receipts && t.store.jobs == s.store.jobs
  {
    var s, turn := Run(Init(), actions), ProcStep(pid, Expired, Answered);
    hide Run;
    var e := s.store.receipts[scope];
    var s1 := Step(s, Start(pid, LookingUp(scope, false, 0)));
    assert s1 == ProcAt(s, pid, LookingUp(scope, false, 0));
    var s2 := Step(s1, turn);
    assert s2 == ProcAt(s1, pid, CheckingHolder(scope, false, 0, e.value, e.rev));
    var s3 := Step(s2, turn);
    assert s3 == ProcAt(s2, pid, ClearingReceipt(scope, false, 0, e.value, e.rev));
  }

  /** A record left initializing is failed by the scan, and a completed one expired by the sweeper. */
  lemma ScanAndSweepMove(actions: seq<Action>, id: Id, pid: nat)
    requires var s := Run(Init(), actions);
             && pid !in s.procs && id in s.store.jobs
             && (s.store.jobs[id].value.Initializing? || s.store.jobs[id].value.Completed?)
    ensures var s := Run(Init(), actions);
            var unpublished := s.store.jobs[id].value.Initializing?;
            var who := if unpublished then Scanner else Expirer;
            var to := if unpublished then Failed(NotPublished) else Expired;
            var turn := ProcStep(pid, to, Answered);
            var t := Step(Step(Step(s, Start(pid, Observing(id, who, 0))), turn), turn);
            id in t.store.jobs && t.store.jobs[id].value == to
  {
    var s := Run(Init(), actions);
    hide Run, Step;
    var unpublished := s.store.jobs[id].value.Initializing?;
    var who, to := if unpublished then Scanner else Expirer, if unpublished then Failed(NotPublished) else Expired;
    Observes(s, pid, id, who, to);
    Moves(Step(Step(s, Start(pid, Observing(id, who, 0))), ProcStep(pid, to, Answered)), pid, id, who, to);
  }

  /** The sweeper frees an active key whose record is gone or finished. */
  lemma SweepFreesKey(actions: seq<Action>, svc: Service, pid: nat)
    requires var s := Run(Init(), actions);
             && pid !in s.procs && svc in s.store.active
             && var id := s.store.active[svc].value; id !in s.store.jobs || Terminal(s.store.jobs[id].value)
    ensures var s, turn := Run(Init(), actions), ProcStep(pid, Expired, Answered);
            var t := Step(Step(Step(Step(s, Start(pid, SweepingActive(svc))), turn), turn), turn);
            svc !in t.store.active && t.store.jobs == s.store.jobs
  {
    var s, turn := Run(Init(), actions), ProcStep(pid, Expired, Answered);
    hide Run;
    var e := s.store.active[svc];
    var s1 := Step(s, Start(pid, SweepingActive(svc)));
    assert s1 == ProcAt(s, pid, SweepingActive(svc));
    var s2 := Step(s1, turn);
    assert s2 == ProcAt(s1, pid, CheckingActive(svc, e.value, e.rev));
    var s3 := Step(s2, turn);
    assert s3 == ProcAt(s2, pid, Freeing(svc, e.value, e.rev));
  }
}

/**
 * The Collection publication protocol as a state machine: any number of
 * publications, cancels, worker scans and owners, sweeper passes and receipt
 * lookups, interleaved one store call at a time over one bucket.
 *
 * Every write can be lost. A lost write reports "unavailable" to its caller
 * and stays in flight: it may take effect at once, at any later step, or
 * never. A process that dies simply takes no further step.
 */
module Publication {
  import opened Wrappers
  import opened JobStore

  // ---- One publication (internal/pgo/publisher.go:268-333) ----

  datatype Try = First | Second | AfterStale

  datatype Outcome = Won | Busy | Errored

  datatype Stage =
    | CreatingJob
    | CreatingActive(rev: nat)
    | Discarding(rev: nat)
    | CreatingReceipt(rev: nat, activeRev: nat, attempt: Try)
    | ReadingReceipt(rev: nat, activeRev: nat)
    | ReadingHolder(rev: nat, activeRev: nat, holder: Id, receiptRev: nat)
    | DroppingStale(rev: nat, activeRev: nat, holder: Id, receiptRev: nat)
    | WithdrawingJob(rev: nat, activeRev: nat)
    | WithdrawingActive(activeRev: nat)
    | Withdrawn
    | Committing(rev: nat)
    | Ended(outcome: Outcome)

  // What Publish did with the reservation its caller holds.
  datatype Claim = Untracked | Tracked | Returned

  datatype Pub = Pub(svc: Service, scope: Option<Scope>, step: Stage, claim: Claim)

  datatype Answer = Replied(reply: Reply) | Unavailable

  /** The write a publication makes next; None where it reads or has ended. */
  function PubCall(id: Id, p: Pub): Option<Call> {
    match p.step
    case CreatingJob => Some(CreateJob(id))
    case CreatingActive(_) => Some(CreateActive(p.svc, id))
    case Discarding(rev) => Some(DeleteJob(id, rev))
    case CreatingReceipt(_, _, _) =>
      if p.scope.Some? then Some(CreateReceipt(p.scope.value, id)) else None
    case DroppingStale(_, _, _, receiptRev) =>
      if p.scope.Some? then Some(DeleteReceipt(p.scope.value, receiptRev)) else None
    case WithdrawingJob(rev, _) => Some(DeleteJob(id, rev))
    case WithdrawingActive(activeRev) => Some(DeleteActive(p.svc, activeRev))
    case Committing(rev) => Some(UpdateJob(id, Pending, rev))
    case _ => None
  }

  /** Where a publication goes on the answer to its write. */
  function PubAfter(p: Pub, a: Answer): Pub {
    match p.step
    case CreatingJob =>
      if a.Unavailable? then p.(step := Ended(Errored), claim := Tracked)
      else if a.reply.Done? then p.(step := CreatingActive(a.reply.rev))
      else p.(step := Ended(Errored), claim := Returned)
    case CreatingActive(rev) =>
      if a.Unavailable? then p.(step := Ended(Errored), claim := Tracked)
      else if !a.reply.Done? then p.(step := Discarding(rev))
      else if p.scope.Some? then p.(step := CreatingReceipt(rev, a.reply.rev, First), claim := Tracked)
      else p.(step := Committing(rev), claim := Tracked)
    case Discarding(_) =>
      p.(step := Ended(Busy), claim := if a.Unavailable? then Tracked else Returned)
    case CreatingReceipt(rev, activeRev, attempt) =>
      if a.Replied? && a.reply.Done? then p.(step := Committing(rev))
      else if a.Unavailable? && attempt.First? then p.(step := CreatingReceipt(rev, activeRev, Second))
      else if a.Replied? && !attempt.AfterStale? then p.(step := ReadingReceipt(rev, activeRev))
      else p.(step := WithdrawingJob(rev, activeRev))
    case DroppingStale(rev, activeRev, _, _) =>
      if a.Replied? && a.reply.Done? then p.(step := CreatingReceipt(rev, activeRev, AfterStale))
      else p.(step := WithdrawingJob(rev, activeRev))
    case WithdrawingJob(_, activeRev) => p.(step := WithdrawingActive(activeRev))
    case WithdrawingActive(_) => p.(step := Withdrawn)
    case Committing(_) =>
      p.(step := Ended(if a.Replied? && a.reply.Done? then Won else Errored))
    case _ => p
  }

  /** Where a publication goes on a read; a failed read withdraws like a refusal. */
  function PubRead(id: Id, p: Pub, st: Store, readable: bool): Pub {
    match p.step
    case ReadingReceipt(rev, activeRev) =>
      if !readable || p.scope.None? || p.scope.value !in st.receipts then
        p.(step := WithdrawingJob(rev, activeRev))
      else
        var e := st.receipts[p.scope.value];
        if e.value == id then p.(step := Committing(rev))
        else p.(step := ReadingHolder(rev, activeRev, e.value, e.rev))
    case ReadingHolder(rev, activeRev, holder, receiptRev) =>
      if readable && holder !in st.jobs then p.(step := DroppingStale(rev, activeRev, holder, receiptRev))
      else p.(step := WithdrawingJob(rev, activeRev))
    case _ => p
  }

  // ---- Every other writer of the bucket ----

  datatype Actor =
    | Canceller   // internal/httpapi/pgo_collections.go:1106-1169
    | Scanner     // internal/pgo/worker.go:409-550
    | Owner       // internal/pgo/worker.go:606-812
    | Expirer     // internal/pgo/sweeper.go:239-276

  datatype Proc =
    | Observing(id: Id, who: Actor, losses: nat)
    | Moving(id: Id, who: Actor, losses: nat, rev: nat, from: Phase)
    | Releasing(id: Id)                                   // runtime.go releaseActive
    | Freeing(svc: Service, id: Id, activeRev: nat)
    | SweepingActive(svc: Service)                        // sweeper.go sweepActive
    | CheckingActive(svc: Service, id: Id, activeRev: nat)
    | Retiring(id: Id)                                    // sweeper.go retire
    | RetiringAt(id: Id, rev: nat, from: Phase)
    | DroppingReceipt(id: Id)
    | LookingUp(scope: Scope, reconcile: bool, losses: nat)  // lookupReceipt, reconcileReceipts
    | CheckingHolder(scope: Scope, reconcile: bool, losses: nat, holder: Id, receiptRev: nat)
    | ClearingReceipt(scope: Scope, reconcile: bool, losses: nat, holder: Id, receiptRev: nat)
    | Finished

  predicate StartsAs(p: Proc) {
    match p
    case Observing(_, who, losses) => !who.Owner? && losses == 0
    case SweepingActive(_) => true
    case Retiring(_) => true
    case LookingUp(_, _, losses) => losses == 0
    case _ => false
  }

  // The transitions each actor makes from what it read.
  predicate Permits(who: Actor, from: Phase, to: Phase) {
    match who
    case Canceller => Live(from) && to == Cancelled
    case Scanner =>
      || (from.Initializing? && to == Failed(NotPublished))
      || (Live(from) && (to == Failed(OtherReason) || to == Running))
    case Owner => from.Running? && (to == Running || to == Completed || to == Failed(OtherReason))
    case Expirer => from.Completed? && to == Expired
  }

  const CANCEL_ATTEMPTS := 5
  const RECEIPT_READS := 2

  function ProcCall(s: State, p: Proc, to: Phase): Option<Call> {
    match p
    case Moving(id, who, _, rev, from) =>
      if Permits(who, from, to) then Some(UpdateJob(id, to, rev)) else None
    case Freeing(svc, _, activeRev) => Some(DeleteActive(svc, activeRev))
    case RetiringAt(id, rev, _) => Some(DeleteJob(id, rev))
    case ClearingReceipt(scope, _, _, _, receiptRev) => Some(DeleteReceipt(scope, receiptRev))
    case _ => None
  }

  function ProcAfter(s: State, p: Proc, to: Phase, a: Answer): Proc {
    match p
    case Moving(id, who, losses, rev, from) =>
      if a.Unavailable? then
        if who.Owner? && to.Running? then p else Finished  // a failed renewal is tried again
      else if !a.reply.Done? then
        if who.Canceller? && losses + 1 < CANCEL_ATTEMPTS then Observing(id, who, losses + 1) else Finished
      else if to.Running? then Moving(id, Owner, 0, a.reply.rev, Running)
      else if who.Expirer? then Finished
      else Releasing(id)
    case RetiringAt(id, _, _) =>
      if a.Replied? && a.reply.Done? && id in s.pubs && s.pubs[id].scope.Some? then DroppingReceipt(id)
      else Finished
    case ClearingReceipt(scope, reconcile, losses, _, _) =>
      if a.Replied? && a.reply.Done? then Finished
      else if !reconcile && losses + 1 < RECEIPT_READS then LookingUp(scope, reconcile, losses + 1)
      else Finished
    case _ => Finished
  }

  /** A process's read. What it saw may be arbitrarily old by the time it writes. */
  function ProcRead(s: State, p: Proc): Proc {
    var st := s.store;
    match p
    case Observing(id, who, losses) =>
      if id in st.jobs then Moving(id, who, losses, st.jobs[id].rev, st.jobs[id].value) else Finished
    case Releasing(id) =>
      if id in s.pubs && s.pubs[id].svc in st.active && st.active[s.pubs[id].svc].value == id then
        Freeing(s.pubs[id].svc, id, st.active[s.pubs[id].svc].rev)
      else Finished
    case SweepingActive(svc) =>
      if svc in st.active then CheckingActive(svc, st.active[svc].value, st.active[svc].rev) else Finished
    case CheckingActive(svc, id, activeRev) =>
      if id !in st.jobs || Terminal(st.jobs[id].value) then Freeing(svc, id, activeRev) else Finished
    case Retiring(id) =>
      if id in st.jobs && Retirable(st.jobs[id].value) then RetiringAt(id, st.jobs[id].rev, st.jobs[id].value)
      else Finished
    case DroppingReceipt(id) =>
      if id in s.pubs && s.pubs[id].scope.Some? && s.pubs[id].scope.value in st.receipts
         && st.receipts[s.pubs[id].scope.value].value == id then
        ClearingReceipt(s.pubs[id].scope.value, true, 0, id, st.receipts[s.pubs[id].scope.value].rev)
      else Finished
    case LookingUp(scope, reconcile, losses) =>
      if scope in st.receipts then
        CheckingHolder(scope, reconcile, losses, st.receipts[scope].value, st.receipts[scope].rev)
      else Finished
    case CheckingHolder(scope, reconcile, losses, holder, receiptRev) =>
      if holder !in st.jobs || (!reconcile && st.jobs[holder].value == Failed(NotPublished)) then
        ClearingReceipt(scope, reconcile, losses, holder, receiptRev)
      else Finished  // the record stands: a replay is answered from it
    case _ => p
  }

  // ---- The machine ----

  datatype State = State(
    store: Store,
    pubs: map<Id, Pub>,          // keyed by the fresh identifier each publication drew
    landed: set<Id>,             // identifiers whose record Create has taken effect
    inflight: map<nat, Call>,    // lost writes that may still take effect, by ticket
    procs: map<nat, Proc>)

  // How the call of one step fares.
  datatype Fate = Answered | Lost(ticket: nat)

  datatype Action =
    | Publish(id: Id, svc: Service, scope: Option<Scope>)
    | Start(pid: nat, proc: Proc)
    | PubStep(id: Id, fate: Fate)
    | ProcStep(pid: nat, to: Phase, fate: Fate)
    | Land(ticket: nat)
    | Drop(ticket: nat)

  function Init(): State {
    State(Store(0, map[], map[], map[]), map[], {}, map[], map[])
  }

  /** One call takes effect now. */
  function Effect(s: State, c: Call): State {
    s.(store := Perform(s.store, c).0,
    landed := if c.CreateJob? && c.id !in s.store.jobs then s.landed + {c.id} else s.landed)
  }

  // A lost write is left in flight.
  function Sent(s: State, ticket: nat, c: Call): State {
    s.(inflight := s.inflight[ticket := c])
  }

  function ProcAt(s: State, pid: nat, p: Proc): State {
    s.(procs := s.procs[pid := p])
  }

  function Step(s: State, a: Action): State {
    match a
    case Publish(id, svc, scope) =>
      if id in s.pubs then s else s.(pubs := s.pubs[id := Pub(svc, scope, CreatingJob, Untracked)])
    case Start(pid, proc) =>
      if pid in s.procs || !StartsAs(proc) then s else s.(procs := s.procs[pid := proc])
    case PubStep(id, fate) =>
      if id !in s.pubs then s else
      var p := s.pubs[id];
      var call := PubCall(id, p);
      if call.None? then s.(pubs := s.pubs[id := PubRead(id, p, s.store, fate.Answered?)])
      else if fate.Answered? then
        Effect(s, call.value).(pubs := s.pubs[id := PubAfter(p, Replied(Perform(s.store, call.value).1))])
      else if fate.ticket in s.inflight then s
      else s.(inflight := s.inflight[fate.ticket := call.value], pubs := s.pubs[id := PubAfter(p, Unavailable)])
    case ProcStep(pid, to, fate) =>
      if pid !in s.procs then s else
      var p := s.procs[pid];
      var call := ProcCall(s, p, to);
      if call.None? then
        // A move with nothing to do from what it read ends; a read that fails ends too.
        ProcAt(s, pid, if !p.Moving? && fate.Answered? then ProcRead(s, p) else Finished)
      else if fate.Answered? then
        ProcAt(Effect(s, call.value), pid, ProcAfter(s, p, to, Replied(Perform(s.store, call.value).1)))
      else if fate.ticket in s.inflight then s
      else ProcAt(Sent(s, fate.ticket, call.value), pid, ProcAfter(s, p, to, Unavailable))
    case Land(ticket) =>
      if ticket !in s.inflight then s
      else Effect(s, s.inflight[ticket]).(inflight := s.inflight - {ticket})
    case Drop(ticket) => s.(inflight := s.inflight - {ticket})
  }

  function Run(s: State, actions: seq<Action>): State
    decreases |actions|
  {
    if actions == [] then s else Run(Step(s, actions[0]), actions[1..])
  }
}

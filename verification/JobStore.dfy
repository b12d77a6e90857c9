/**
 * The jobs bucket by its contract: one revision counter, Create only on an
 * absent key, Update and Delete only at the expected revision
 * (internal/natskv/natskv.go:42-59). The three key families the publication
 * protocol writes are three maps under the one counter, and a record is kept
 * as the phase of its life.
 */
module JobStore {
  type Id = nat       // a Collection identifier
  type Service = nat  // one namespace and Service
  type Scope = nat    // one (principal, namespace, Service, key) tuple

  datatype Reason = NotPublished | OtherReason

  datatype Phase =
    | Initializing
    | Pending
    | Running
    | Completed
    | Failed(reason: Reason)
    | Cancelled
    | Expired

  predicate Terminal(p: Phase) {
    p.Completed? || p.Failed? || p.Cancelled? || p.Expired?
  }

  predicate Live(p: Phase) {
    p.Pending? || p.Running?
  }

  // The test the receipt lookup makes: neither unfinished nor failed not_published.
  predicate EverClaimable(p: Phase) {
    !p.Initializing? && p != Failed(NotPublished)
  }

  predicate Retirable(p: Phase) {
    p.Expired? || p.Failed? || p.Cancelled?
  }

  /** The transitions any writer may make. A renewal keeps a record running. */
  predicate Allowed(from: Phase, to: Phase) {
    match from
    case Initializing => to == Pending || to == Failed(NotPublished)
    case Pending => to == Running || to == Failed(OtherReason) || to == Cancelled
    case Running => to == Running || to == Completed || to == Failed(OtherReason) || to == Cancelled
    case Completed => to == Expired
    case _ => false
  }

  datatype Versioned<V> = Versioned(value: V, rev: nat)

  datatype Store = Store(
    rev: nat,
    jobs: map<Id, Versioned<Phase>>,
    active: map<Service, Versioned<Id>>,
    receipts: map<Scope, Versioned<Id>>)

  datatype Call =
    | CreateJob(id: Id)
    | UpdateJob(id: Id, to: Phase, expected: nat)
    | DeleteJob(id: Id, expected: nat)
    | CreateActive(svc: Service, holder: Id)
    | DeleteActive(svc: Service, expected: nat)
    | CreateReceipt(scope: Scope, holder: Id)
    | DeleteReceipt(scope: Scope, expected: nat)

  datatype Reply = Done(rev: nat) | KeyExists | RevisionMismatch

  predicate At<K, V>(m: map<K, Versioned<V>>, k: K, rev: nat) {
    k in m && m[k].rev == rev
  }

  /** What the store does with one call, and what it answers. */
  function Perform(st: Store, c: Call): (Store, Reply) {
    var rev := st.rev + 1;
    var done := Done(rev);
    match c
    case CreateJob(id) =>
      if id in st.jobs then (st, KeyExists)
      else (st.(rev := rev, jobs := st.jobs[id := Versioned(Initializing, rev)]), done)
    case UpdateJob(id, to, expected) =>
      if !At(st.jobs, id, expected) then (st, RevisionMismatch)
      else (st.(rev := rev, jobs := st.jobs[id := Versioned(to, rev)]), done)
    case DeleteJob(id, expected) =>
      if !At(st.jobs, id, expected) then (st, RevisionMismatch)
      else (st.(rev := rev, jobs := st.jobs - {id}), done)
    case CreateActive(svc, holder) =>
      if svc in st.active then (st, KeyExists)
      else (st.(rev := rev, active := st.active[svc := Versioned(holder, rev)]), done)
    case DeleteActive(svc, expected) =>
      if !At(st.active, svc, expected) then (st, RevisionMismatch)
      else (st.(rev := rev, active := st.active - {svc}), done)
    case CreateReceipt(scope, holder) =>
      if scope in st.receipts then (st, KeyExists)
      else (st.(rev := rev, receipts := st.receipts[scope := Versioned(holder, rev)]), done)
    case DeleteReceipt(scope, expected) =>
      if !At(st.receipts, scope, expected) then (st, RevisionMismatch)
      else (st.(rev := rev, receipts := st.receipts - {scope}), done)
  }
}

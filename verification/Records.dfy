/** The part of a Collection record the caches and the listing answer from (internal/pgo/caches.go:105-134). */
module Records {
  import JobStore

  // A state another gateway version wrote is kept under its own name.
  datatype State = Initializing | Pending | Running | Completed | Failed | Cancelled | Expired | Unknown(name: nat)

  // An unknown state counts as live.
  predicate Finished(s: State) {
    s.Completed? || s.Failed? || s.Cancelled? || s.Expired?
  }

  datatype Origin = Schedule | Api

  datatype Job = Job(svc: JobStore.Service, state: State, origin: Origin, createdAt: nat)
}

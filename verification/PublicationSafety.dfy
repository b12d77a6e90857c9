/**
 * What every reachable state of the publication protocol keeps, and the
 * promises that follow: one live Collection per Service, a receipt that always
 * names the claimable record of its key, and reservations handed back only
 * where nothing of a publication is left.
 */
module PublicationSafety {
  import opened Wrappers
  import opened JobStore
  import opened Publication

  // ---- Facts a process may rely on however long ago it read ----

  // A value read at a revision is the value for as long as that revision stands.
  ghost predicate Saw<K, V>(m: map<K, Versioned<V>>, counter: nat, k: K, rev: nat, v: V) {
    rev <= counter && (At(m, k, rev) ==> m[k].value == v)
  }

  // Created at some time, and now gone or terminal: it stays so.
  ghost predicate Dead(s: State, id: Id) {
    id in s.landed && (id in s.store.jobs ==> Terminal(s.store.jobs[id].value))
  }

  // Created at some time, and never to be claimed: what a stale receipt names.
  ghost predicate Void(s: State, id: Id) {
    id in s.landed && (id in s.store.jobs ==> s.store.jobs[id].value == Failed(NotPublished))
  }

  ghost predicate GaveUp(step: Stage) {
    step.WithdrawingJob? || step.WithdrawingActive? || step.Withdrawn?
  }

  // The record's delete has been issued, so the key is the next to go.
  ghost predicate PastDelete(step: Stage) {
    step.WithdrawingActive? || step.Withdrawn?
  }

  // The update to pending has been, or is the next thing to be, issued.
  ghost predicate Committed(step: Stage) {
    step.Committing? || step.Ended?
  }

  // No longer entitled to its Service's active key.
  ghost predicate Idle(s: State, id: Id) {
    Dead(s, id) || (id in s.landed && id in s.pubs && PastDelete(s.pubs[id].step))
  }

  ghost predicate HoldsActive(s: State, id: Id) {
    id in s.pubs && s.pubs[id].svc in s.store.active && s.store.active[s.pubs[id].svc].value == id
  }

  ghost predicate HoldsReceipt(s: State, id: Id) {
    id in s.pubs && (s.pubs[id].scope.Some? ==>
                       && s.pubs[id].scope.value in s.store.receipts
                       && s.store.receipts[s.pubs[id].scope.value].value == id)
  }

  // ---- The invariant ----

  /** A write that may take effect now, or at any later time. */
  ghost predicate Justified(s: State, c: Call) {
    var st := s.store;
    match c
    case CreateJob(id) => id in s.pubs && id !in s.landed
    case UpdateJob(id, to, expected) =>
      && id in s.landed && id in s.pubs && expected <= st.rev
      && (to.Pending? ==> Committed(s.pubs[id].step))
      && (At(st.jobs, id, expected) ==>
            && Allowed(st.jobs[id].value, to)
            && (to.Pending? ==> HoldsActive(s, id) && HoldsReceipt(s, id)))
    case DeleteJob(id, expected) =>
      && expected <= st.rev
      && (At(st.jobs, id, expected) ==> st.jobs[id].value.Initializing? || Retirable(st.jobs[id].value))
    case CreateActive(svc, holder) =>
      holder in s.landed && holder in s.pubs && s.pubs[holder].svc == svc
    case DeleteActive(svc, expected) =>
      expected <= st.rev && (At(st.active, svc, expected) ==> Idle(s, st.active[svc].value))
    case CreateReceipt(scope, holder) =>
      holder in s.landed && holder in s.pubs && s.pubs[holder].scope == Some(scope)
    case DeleteReceipt(scope, expected) =>
      expected <= st.rev && (At(st.receipts, scope, expected) ==> Void(s, st.receipts[scope].value))
  }

  // A publication's own record stands as it created it, and its Service is its own.
  ghost predicate OwnsRecord(s: State, id: Id, rev: nat) {
    id in s.landed && Saw(s.store.jobs, s.store.rev, id, rev, Initializing)
  }

  ghost predicate OwnsActive(s: State, id: Id, rev: nat) {
    At(s.store.jobs, id, rev) ==> HoldsActive(s, id)
  }

  ghost predicate PastActive(step: Stage) {
    || step.CreatingReceipt? || step.ReadingReceipt? || step.ReadingHolder? || step.DroppingStale?
    || GaveUp(step) || step.Committing? || step == Ended(Won)
  }

  ghost predicate PubOk(s: State, id: Id, p: Pub) {
    var st := s.store;
    && (!Committed(p.step) && id in st.jobs ==> !EverClaimable(st.jobs[id].value))
    && (p.claim.Returned? ==> Dead(s, id) && p.step == Ended(Busy) && !HoldsActive(s, id))
    && (PastActive(p.step) ==> p.claim.Tracked?)
    && match p.step
       case CreatingJob => id !in s.landed && p.claim.Untracked?
       case CreatingActive(rev) =>
         OwnsRecord(s, id, rev) && SoleRev(s, id, rev) && p.claim.Untracked? && !HoldsActive(s, id)
       case Discarding(rev) =>
         OwnsRecord(s, id, rev) && SoleRev(s, id, rev) && p.claim.Untracked? && !HoldsActive(s, id)
       case CreatingReceipt(rev, activeRev, _) => Publishing(s, id, p, rev, activeRev)
       case ReadingReceipt(rev, activeRev) => Publishing(s, id, p, rev, activeRev)
       case ReadingHolder(rev, activeRev, holder, receiptRev) =>
         && Publishing(s, id, p, rev, activeRev)
         && holder in s.landed && Saw(st.receipts, st.rev, p.scope.value, receiptRev, holder)
       case DroppingStale(rev, activeRev, holder, receiptRev) =>
         && Publishing(s, id, p, rev, activeRev)
         && Void(s, holder) && Saw(st.receipts, st.rev, p.scope.value, receiptRev, holder)
       case WithdrawingJob(rev, activeRev) =>
         && OwnsRecord(s, id, rev) && SoleRev(s, id, rev)
         && Saw(st.active, st.rev, p.svc, activeRev, id) && p.scope.Some?
       case WithdrawingActive(activeRev) =>
         id in s.landed && Saw(st.active, st.rev, p.svc, activeRev, id) && p.scope.Some?
       case Withdrawn => id in s.landed && p.scope.Some?
       case Committing(rev) =>
         && OwnsRecord(s, id, rev) && OwnsActive(s, id, rev)
         && (At(st.jobs, id, rev) ==> HoldsReceipt(s, id))
       case Ended(outcome) => true
  }

  // Nothing but the create wrote an initializing record.
  ghost predicate SoleRev(s: State, id: Id, rev: nat) {
    id in s.store.jobs && s.store.jobs[id].value.Initializing? ==> s.store.jobs[id].rev == rev
  }

  ghost predicate Publishing(s: State, id: Id, p: Pub, rev: nat, activeRev: nat) {
    && p.scope.Some? && OwnsRecord(s, id, rev) && SoleRev(s, id, rev) && OwnsActive(s, id, rev)
    && Saw(s.store.active, s.store.rev, p.svc, activeRev, id)
  }

  ghost predicate ProcOk(s: State, p: Proc) {
    var st := s.store;
    match p
    case Moving(id, _, _, rev, from) => id in s.landed && Saw(st.jobs, st.rev, id, rev, from)
    case Releasing(id) => Dead(s, id)
    case Freeing(svc, id, activeRev) => Dead(s, id) && Saw(st.active, st.rev, svc, activeRev, id)
    case CheckingActive(svc, id, activeRev) => id in s.landed && Saw(st.active, st.rev, svc, activeRev, id)
    case RetiringAt(id, rev, from) => id in s.landed && Retirable(from) && Saw(st.jobs, st.rev, id, rev, from)
    case DroppingReceipt(id) => id in s.landed && id !in st.jobs
    case CheckingHolder(scope, _, _, holder, receiptRev) =>
      holder in s.landed && Saw(st.receipts, st.rev, scope, receiptRev, holder)
    case ClearingReceipt(scope, _, _, holder, receiptRev) =>
      Void(s, holder) && Saw(st.receipts, st.rev, scope, receiptRev, holder)
    case _ => true
  }

  /** What the three key families promise about one another. */
  ghost predicate StoreOk(s: State) {
    var st := s.store;
    && s.landed <= s.pubs.Keys
    && (forall id <- st.jobs :: id in s.landed && st.jobs[id].rev <= st.rev)
    && (forall svc <- st.active ::
          st.active[svc].rev <= st.rev && st.active[svc].value in s.landed && s.pubs[st.active[svc].value].svc == svc)
    && (forall scope <- st.receipts ::
          && st.receipts[scope].rev <= st.rev && st.receipts[scope].value in s.landed
          && s.pubs[st.receipts[scope].value].scope == Some(scope))
    && (forall id <- st.jobs :: Live(st.jobs[id].value) ==> HoldsActive(s, id))
    && (forall id <- st.jobs :: EverClaimable(st.jobs[id].value) ==> HoldsReceipt(s, id))
  }

  // No create of a record or of an active key is in flight twice.
  ghost predicate Apart(inflight: map<nat, Call>) {
    forall t, u | t in inflight && u in inflight && inflight[t] == inflight[u] ::
      inflight[t].CreateJob? || inflight[t].CreateActive? ==> t == u
  }

  ghost predicate InflightOk(s: State) {
    && (forall t <- s.inflight :: Justified(s, s.inflight[t]))
    && Apart(s.inflight)
    && (forall t <- s.inflight :: s.inflight[t].CreateJob? ==>
          s.inflight[t].id in s.pubs && !s.pubs[s.inflight[t].id].step.CreatingJob?)
    && (forall t <- s.inflight :: s.inflight[t].CreateActive? ==>
          s.inflight[t].holder in s.pubs && s.pubs[s.inflight[t].holder].claim.Tracked?)
  }

  ghost predicate Inv(s: State) {
    && StoreOk(s)
    && InflightOk(s)
    && (forall id <- s.pubs :: PubOk(s, id, s.pubs[id]))
    && (forall pid <- s.procs :: ProcOk(s, s.procs[pid]))
  }

  // ---- What one step may do to the facts the others rely on ----

  ghost predicate Progress(p: Pub, q: Pub) {
    && q.svc == p.svc && q.scope == p.scope
    && (Committed(p.step) ==> Committed(q.step)) && (GaveUp(p.step) ==> GaveUp(q.step))
    && (PastDelete(p.step) ==> PastDelete(q.step))
    && (!p.claim.Untracked? ==> q.claim == p.claim)
    && (q.step.CreatingJob? ==> p.step.CreatingJob?)
  }

  ghost predicate Kept<K, V>(m: map<K, Versioned<V>>, n: map<K, Versioned<V>>, k: K) {
    k in m && k in n && m[k] == n[k]
  }

  // What one step may do to one record; `landed` remembers that it was created.
  ghost predicate RecordFollows(s: State, t: State, id: Id) {
    var a, b := s.store.jobs, t.store.jobs;
    if id in a then
      if id in b then
        || b[id] == a[id]
        || (&& b[id].rev > s.store.rev && Allowed(a[id].value, b[id].value)
            && (b[id].value.Pending? ==> id in s.pubs && Committed(s.pubs[id].step)))
      else a[id].value.Initializing? || Retirable(a[id].value)
    else id in b ==> b[id].rev > s.store.rev && b[id].value.Initializing? && id !in s.landed
  }

  // What one write may do to the active keys and the receipts.
  ghost predicate KeysFollow(s: State, t: State) {
    var a, b := s.store, t.store;
    && a.rev <= b.rev
    && (forall k <- b.active :: Kept(a.active, b.active, k) || b.active[k].rev > a.rev)
    && (forall k <- b.receipts :: Kept(a.receipts, b.receipts, k) || b.receipts[k].rev > a.rev)
    && (forall k <- a.active :: Kept(a.active, b.active, k) || Idle(s, a.active[k].value))
    && (forall k <- a.receipts :: Kept(a.receipts, b.receipts, k) || Void(s, a.receipts[k].value))
  }

  ghost predicate Follows(s: State, t: State) {
    && s.store.rev <= t.store.rev && s.landed <= t.landed
    && (forall id <- s.pubs :: id in t.pubs && Progress(s.pubs[id], t.pubs[id]))
    && (forall id :: RecordFollows(s, t, id))
    && (forall id <- t.landed :: id in s.landed || id in t.store.jobs)
    // A key that appears is new; a key that goes was taken from one no longer entitled to it.
    && KeysFollow(s, t)
  }

  lemma DeadStays(s: State, t: State, id: Id)
    requires Follows(s, t)
    ensures Dead(s, id) ==> Dead(t, id)
    ensures Void(s, id) ==> Void(t, id)
    ensures Idle(s, id) ==> Idle(t, id)
  {
    assert RecordFollows(s, t, id);
  }

  lemma SawStays(s: State, t: State, id: Id, rev: nat, v: Phase)
    requires Follows(s, t) && Saw(s.store.jobs, s.store.rev, id, rev, v) && id in s.landed
    ensures Saw(t.store.jobs, t.store.rev, id, rev, v)
    ensures At(t.store.jobs, id, rev) ==> Kept(s.store.jobs, t.store.jobs, id)
  {
    assert RecordFollows(s, t, id);
  }

  // While a record stands unfinished, nobody takes the keys its publication holds.
  lemma HoldsStays(s: State, t: State, id: Id, rev: nat)
    requires Follows(s, t) && id in s.landed && id in s.pubs && !GaveUp(s.pubs[id].step)
    requires rev <= s.store.rev && At(t.store.jobs, id, rev) && !Terminal(t.store.jobs[id].value)
    ensures At(s.store.jobs, id, rev)
    ensures HoldsActive(s, id) ==> HoldsActive(t, id)
    ensures HoldsReceipt(s, id) ==> HoldsReceipt(t, id)
  {
    assert RecordFollows(s, t, id);
  }

  lemma JustifiedStays(s: State, t: State, c: Call)
    requires Follows(s, t) && Justified(s, c)
    requires c.CreateJob? ==> c.id !in t.landed
    ensures Justified(t, c)
  {
    match c
    case CreateJob(id) =>
    case UpdateJob(id, to, expected) =>
      assert RecordFollows(s, t, id);
      if At(t.store.jobs, id, expected) && to.Pending? {
        HoldsStays(s, t, id, expected);
      }
    case DeleteJob(id, expected) =>
      assert RecordFollows(s, t, id);
    case CreateActive(svc, holder) =>
    case DeleteActive(svc, expected) =>
      if At(t.store.active, svc, expected) { DeadStays(s, t, t.store.active[svc].value); }
    case CreateReceipt(scope, holder) =>
    case DeleteReceipt(scope, expected) =>
      if At(t.store.receipts, scope, expected) { DeadStays(s, t, t.store.receipts[scope].value); }
  }

  lemma ProcStays(s: State, t: State, p: Proc)
    requires Follows(s, t) && ProcOk(s, p)
    ensures ProcOk(t, p)
  {
    match p
    case Moving(id, _, _, rev, from) => SawStays(s, t, id, rev, from);
    case RetiringAt(id, rev, from) => SawStays(s, t, id, rev, from);
    case Releasing(id) => DeadStays(s, t, id);
    case Freeing(_, id, _) => DeadStays(s, t, id);
    case DroppingReceipt(id) => assert RecordFollows(s, t, id);
    case ClearingReceipt(_, _, _, holder, _) => DeadStays(s, t, holder);
    case _ =>
  }

  lemma PubStays(s: State, t: State, id: Id)
    requires Follows(s, t) && id in s.pubs && PubOk(s, id, s.pubs[id])
    requires t.pubs[id] == s.pubs[id]
    requires HoldsActive(t, id) && !s.pubs[id].claim.Tracked? ==> HoldsActive(s, id)
    requires s.pubs[id].step.CreatingJob? ==> id !in t.landed
    ensures PubOk(t, id, t.pubs[id])
  {
    assert RecordFollows(s, t, id);
    DeadStays(s, t, id);
    var p := s.pubs[id];
    match p.step
    case CreatingReceipt(rev, activeRev, _) => PublishingStays(s, t, id, rev, activeRev);
    case ReadingReceipt(rev, activeRev) => PublishingStays(s, t, id, rev, activeRev);
    case ReadingHolder(rev, activeRev, holder, _) => PublishingStays(s, t, id, rev, activeRev);
    case DroppingStale(rev, activeRev, holder, _) =>
      PublishingStays(s, t, id, rev, activeRev);
      DeadStays(s, t, holder);
    case Committing(rev) =>
      SawStays(s, t, id, rev, Initializing);
      if At(t.store.jobs, id, rev) { HoldsStays(s, t, id, rev); }
    case _ =>
  }

  lemma PublishingStays(s: State, t: State, id: Id, rev: nat, activeRev: nat)
    requires Follows(s, t) && id in s.pubs && t.pubs[id] == s.pubs[id]
    requires Publishing(s, id, s.pubs[id], rev, activeRev) && !GaveUp(s.pubs[id].step)
    ensures Publishing(t, id, t.pubs[id], rev, activeRev)
  {
    SawStays(s, t, id, rev, Initializing);
    assert RecordFollows(s, t, id);
    if At(t.store.jobs, id, rev) { HoldsStays(s, t, id, rev); }
  }

  // ---- Every step keeps the invariant ----

  lemma EffectFollows(s: State, c: Call)
    requires Inv(s) && Justified(s, c)
    ensures Follows(s, Effect(s, c))
  {
    hide Inv, PubOk, ProcOk, InflightOk;
    InvParts(s);
    forall id ensures RecordFollows(s, Effect(s, c), id) { EffectOnRecord(s, c, id); }
    EffectOnKeys(s, c);
    forall id <- s.pubs ensures Progress(s.pubs[id], Effect(s, c).pubs[id]) {}
    assert s.landed <= Effect(s, c).landed;
  }

  lemma EffectOnRecord(s: State, c: Call, id: Id)
    requires StoreOk(s) && Justified(s, c)
    ensures RecordFollows(s, Effect(s, c), id)
    ensures id in Effect(s, c).landed ==> id in s.landed || id in Effect(s, c).store.jobs
  {
    assert id in s.store.jobs ==> id in s.landed;
  }

  lemma EffectOnKeys(s: State, c: Call)
    requires StoreOk(s) && Justified(s, c)
    ensures KeysFollow(s, Effect(s, c))
  {
    hide Idle, Void;
    EffectMakesKeys(s, c);
    EffectTakesKeys(s, c);
  }

  lemma EffectMakesKeys(s: State, c: Call)
    ensures var a, b := s.store, Effect(s, c).store;
            && a.rev <= b.rev
            && (forall k <- b.active :: Kept(a.active, b.active, k) || b.active[k].rev > a.rev)
            && (forall k <- b.receipts :: Kept(a.receipts, b.receipts, k) || b.receipts[k].rev > a.rev)
  {
  }

  lemma EffectTakesKeys(s: State, c: Call)
    requires StoreOk(s) && Justified(s, c)
    ensures var a, b := s.store, Effect(s, c).store;
            && (forall k <- a.active :: Kept(a.active, b.active, k) || Idle(s, a.active[k].value))
            && (forall k <- a.receipts :: Kept(a.receipts, b.receipts, k) || Void(s, a.receipts[k].value))
  {
  }

  // Whatever takes a key away took it from a record that needs it no longer.
  lemma EffectKeepsHolders(s: State, c: Call, id: Id)
    requires StoreOk(s) && Justified(s, c) && id in Effect(s, c).store.jobs
    requires id in s.store.jobs && GaveUp(s.pubs[id].step) ==> !EverClaimable(s.store.jobs[id].value)
    ensures Live(Effect(s, c).store.jobs[id].value) ==> HoldsActive(Effect(s, c), id)
    ensures EverClaimable(Effect(s, c).store.jobs[id].value) ==> HoldsReceipt(Effect(s, c), id)
  {
    EffectKeepsActive(s, c, id);
    EffectKeepsReceipt(s, c, id);
  }

  lemma EffectKeepsActive(s: State, c: Call, id: Id)
    requires StoreOk(s) && Justified(s, c) && id in Effect(s, c).store.jobs
    requires id in s.store.jobs && GaveUp(s.pubs[id].step) ==> !EverClaimable(s.store.jobs[id].value)
    ensures Live(Effect(s, c).store.jobs[id].value) ==> HoldsActive(Effect(s, c), id)
  {
    hide Void, HoldsReceipt;
    EffectOnKeys(s, c);
    EffectOnRecord(s, c, id);
    if id in s.store.jobs { assert Live(s.store.jobs[id].value) ==> HoldsActive(s, id); }
  }

  lemma EffectKeepsReceipt(s: State, c: Call, id: Id)
    requires StoreOk(s) && Justified(s, c) && id in Effect(s, c).store.jobs
    requires id in s.store.jobs && GaveUp(s.pubs[id].step) ==> !EverClaimable(s.store.jobs[id].value)
    ensures EverClaimable(Effect(s, c).store.jobs[id].value) ==> HoldsReceipt(Effect(s, c), id)
  {
    hide Idle, HoldsActive;
    EffectOnKeys(s, c);
    EffectOnRecord(s, c, id);
    if id in s.store.jobs { assert EverClaimable(s.store.jobs[id].value) ==> HoldsReceipt(s, id); }
  }

  lemma UncommittedNotClaimed(s: State, id: Id)
    requires Inv(s) && id in s.store.jobs
    ensures !Committed(s.pubs[id].step) ==> !EverClaimable(s.store.jobs[id].value)
  {
    assert PubOk(s, id, s.pubs[id]);
  }

  lemma EffectStoreOk(s: State, c: Call)
    requires Inv(s) && Justified(s, c)
    ensures StoreOk(Effect(s, c))
  {
    hide PubOk, ProcOk, InflightOk, HoldsActive, HoldsReceipt;
    var t := Effect(s, c);
    forall id <- t.store.jobs
      ensures Live(t.store.jobs[id].value) ==> HoldsActive(t, id)
      ensures EverClaimable(t.store.jobs[id].value) ==> HoldsReceipt(t, id)
    {
      if id in s.store.jobs { UncommittedNotClaimed(s, id); }
      EffectKeepsHolders(s, c, id);
    }
  }

  lemma PubCallJustified(s: State, id: Id)
    requires Inv(s) && id in s.pubs && PubCall(id, s.pubs[id]).Some?
    ensures Justified(s, PubCall(id, s.pubs[id]).value)
  {
    assert PubOk(s, id, s.pubs[id]);
  }

  // One publication moves on, the rest of the state as `u` has it.
  ghost function Moved(u: State, id: Id, q: Pub): State {
    u.(pubs := u.pubs[id := q])
  }

  lemma MovedFollows(s: State, u: State, id: Id, q: Pub)
    requires id in s.pubs && u.pubs == s.pubs && Follows(s, u) && StoreOk(u) && Progress(s.pubs[id], q)
    ensures Follows(s, Moved(u, id, q)) && StoreOk(Moved(u, id, q))
  {
    var t := Moved(u, id, q);
    forall j ensures RecordFollows(s, t, j) { assert RecordFollows(s, u, j); }
    forall j <- t.store.jobs | Live(t.store.jobs[j].value) ensures HoldsActive(t, j) { assert HoldsActive(u, j); }
    forall j <- t.store.jobs | EverClaimable(t.store.jobs[j].value) ensures HoldsReceipt(t, j) {
      assert HoldsReceipt(u, j);
    }
  }

  // A publication stays well placed on every answer to its own call.
  lemma PubAnswered(s: State, id: Id)
    requires StoreOk(s) && id in s.pubs && PubOk(s, id, s.pubs[id]) && PubCall(id, s.pubs[id]).Some?
    ensures var c := PubCall(id, s.pubs[id]).value;
            var q := PubAfter(s.pubs[id], Replied(Perform(s.store, c).1));
            Progress(s.pubs[id], q) && PubOk(Moved(Effect(s, c), id, q), id, q)
  {
    match s.pubs[id].step
    case CreatingActive(_) => ActiveAnswered(s, id);
    case CreatingReceipt(_, _, _) => ReceiptAnswered(s, id);
    case DroppingStale(_, _, _, _) => StaleAnswered(s, id);
    case _ =>
  }

  lemma ActiveAnswered(s: State, id: Id)
    requires StoreOk(s) && id in s.pubs && PubOk(s, id, s.pubs[id]) && s.pubs[id].step.CreatingActive?
    ensures var c := PubCall(id, s.pubs[id]).value;
            var q := PubAfter(s.pubs[id], Replied(Perform(s.store, c).1));
            Progress(s.pubs[id], q) && PubOk(Moved(Effect(s, c), id, q), id, q)
  {
  }

  lemma ReceiptAnswered(s: State, id: Id)
    requires StoreOk(s) && id in s.pubs && PubOk(s, id, s.pubs[id]) && s.pubs[id].step.CreatingReceipt?
    ensures var c := PubCall(id, s.pubs[id]).value;
            var q := PubAfter(s.pubs[id], Replied(Perform(s.store, c).1));
            Progress(s.pubs[id], q) && PubOk(Moved(Effect(s, c), id, q), id, q)
  {
  }

  lemma StaleAnswered(s: State, id: Id)
    requires StoreOk(s) && id in s.pubs && PubOk(s, id, s.pubs[id]) && s.pubs[id].step.DroppingStale?
    ensures var c := PubCall(id, s.pubs[id]).value;
            var q := PubAfter(s.pubs[id], Replied(Perform(s.store, c).1));
            Progress(s.pubs[id], q) && PubOk(Moved(Effect(s, c), id, q), id, q)
  {
  }

  lemma PubLost(s: State, id: Id, t: State)
    requires Inv(s) && id in s.pubs && PubCall(id, s.pubs[id]).Some?
    requires t == s.(inflight := t.inflight, pubs := s.pubs[id := PubAfter(s.pubs[id], Unavailable)])
    ensures Progress(s.pubs[id], t.pubs[id]) && PubOk(t, id, t.pubs[id])
  {
    assert PubOk(s, id, s.pubs[id]);
  }

  lemma PubReads(s: State, id: Id, readable: bool)
    requires Inv(s) && id in s.pubs && PubCall(id, s.pubs[id]).None?
    ensures var q := PubRead(id, s.pubs[id], s.store, readable);
            Progress(s.pubs[id], q) && PubOk(Moved(s, id, q), id, q)
  {
    assert PubOk(s, id, s.pubs[id]);
  }

  // A publication the step left as it was, and took nothing from.
  ghost predicate Undisturbed(s: State, t: State, j: Id) {
    && j in s.pubs && j in t.pubs && t.pubs[j] == s.pubs[j]
    && (HoldsActive(t, j) && !s.pubs[j].claim.Tracked? ==> HoldsActive(s, j))
    && (s.pubs[j].step.CreatingJob? ==> j !in t.landed)
  }

  lemma StateStays(s: State, t: State)
    requires Inv(s) && Follows(s, t) && StoreOk(t) && InflightOk(t)
    requires forall j <- t.pubs :: Undisturbed(s, t, j) || PubOk(t, j, t.pubs[j])
    requires forall k <- t.procs :: (k in s.procs && t.procs[k] == s.procs[k]) || ProcOk(t, t.procs[k])
    ensures Inv(t)
  {
    forall j <- t.pubs ensures PubOk(t, j, t.pubs[j]) {
      if Undisturbed(s, t, j) { PubStays(s, t, j); }
    }
    forall k <- t.procs ensures ProcOk(t, t.procs[k]) {
      if k in s.procs && t.procs[k] == s.procs[k] { ProcStays(s, t, s.procs[k]); }
    }
  }

  lemma InflightStays(s: State, t: State)
    requires Inv(s) && Follows(s, t)
    requires forall k <- t.inflight :: k in s.inflight && t.inflight[k] == s.inflight[k]
    requires forall k <- t.inflight :: t.inflight[k].CreateJob? ==> t.inflight[k].id !in t.landed
    ensures InflightOk(t)
  {
    forall k <- t.inflight ensures Justified(t, t.inflight[k]) {
      JustifiedStays(s, t, s.inflight[k]);
    }
  }

  lemma ApartGrows(inflight: map<nat, Call>, ticket: nat, c: Call)
    requires Apart(inflight) && ticket !in inflight
    requires c.CreateJob? || c.CreateActive? ==> forall t <- inflight :: inflight[t] != c
    ensures Apart(inflight[ticket := c])
  {
  }

  // A lost write joins the others still in flight.
  lemma InflightGrows(s: State, t: State, ticket: nat, c: Call)
    requires Inv(s) && Follows(s, t) && t.landed == s.landed && Justified(s, c)
    requires ticket !in s.inflight && t.inflight == s.inflight[ticket := c]
    requires c.CreateJob? ==> s.pubs[c.id].step.CreatingJob? && !t.pubs[c.id].step.CreatingJob?
    requires c.CreateActive? ==> !s.pubs[c.holder].claim.Tracked? && t.pubs[c.holder].claim.Tracked?
    ensures InflightOk(t)
  {
    assert (c.CreateJob? ==> c.id in s.pubs) && (c.CreateActive? ==> c.holder in s.pubs);
    hide Inv, Follows, Justified, PubOk, ProcOk, StoreOk, Apart;
    assert InflightOk(s) by { InvParts(s); }
    ApartGrows(s.inflight, ticket, c);
    forall k <- t.inflight ensures Justified(t, t.inflight[k]) { GrownJustified(s, t, t.inflight[k]); }
    forall k <- t.inflight | t.inflight[k].CreateJob?
      ensures t.inflight[k].id in t.pubs && !t.pubs[t.inflight[k].id].step.CreatingJob?
    {
      ProgressOf(s, t, t.inflight[k].id);
    }
    forall k <- t.inflight | t.inflight[k].CreateActive?
      ensures t.inflight[k].holder in t.pubs && t.pubs[t.inflight[k].holder].claim.Tracked?
    {
      ProgressOf(s, t, t.inflight[k].holder);
    }
  }

  lemma ProgressOf(s: State, t: State, id: Id)
    requires Follows(s, t) && id in s.pubs
    ensures id in t.pubs && Progress(s.pubs[id], t.pubs[id])
  {
  }

  lemma GrownJustified(s: State, t: State, c: Call)
    requires Follows(s, t) && t.landed == s.landed && Justified(s, c)
    ensures Justified(t, c)
  {
    JustifiedStays(s, t, c);
  }

  // Nobody else's key is written by a call that is not an active create, nor another's record created.
  lemma EffectUndisturbed(s: State, c: Call, t: State, j: Id)
    requires Inv(s) && Justified(s, c) && j in s.pubs && j in t.pubs && t.pubs[j] == s.pubs[j]
    requires t.store == Effect(s, c).store && t.landed == Effect(s, c).landed
    requires c.CreateActive? ==> c.holder != j || s.pubs[j].claim.Tracked?
    requires c.CreateJob? ==> c.id != j || !s.pubs[j].step.CreatingJob?
    ensures Undisturbed(s, t, j)
  {
    assert PubOk(s, j, s.pubs[j]);
  }

  lemma StillUndisturbed(s: State, t: State, j: Id)
    requires Inv(s) && j in s.pubs && j in t.pubs && t.pubs[j] == s.pubs[j]
    requires t.store == s.store && t.landed == s.landed
    ensures Undisturbed(s, t, j)
  {
    assert PubOk(s, j, s.pubs[j]);
  }

  lemma PubReadKeeps(s: State, id: Id, readable: bool)
    requires Inv(s) && id in s.pubs && PubCall(id, s.pubs[id]).None?
    ensures var t := Moved(s, id, PubRead(id, s.pubs[id], s.store, readable)); Inv(t) && Follows(s, t)
  {
    hide Inv, Follows, PubOk, ProcOk, PubRead, Undisturbed;
    InvParts(s);
    FollowsSelf(s);
    var t := Moved(s, id, PubRead(id, s.pubs[id], s.store, readable));
    PubReads(s, id, readable);
    MovedFollows(s, s, id, t.pubs[id]);
    InflightStays(s, t);
    forall j <- t.pubs | j != id ensures Undisturbed(s, t, j) { StillUndisturbed(s, t, j); }
    StateStays(s, t);
  }

  // A publication creates nothing but its own record and its own key.
  lemma PubCreates(s: State, id: Id, c: Call)
    requires Inv(s) && id in s.pubs && PubCall(id, s.pubs[id]) == Some(c)
    ensures c.CreateJob? ==>
              c.id == id && s.pubs[id].step.CreatingJob? && !PubAfter(s.pubs[id], Unavailable).step.CreatingJob?
    ensures c.CreateActive? ==>
              c.holder == id && !s.pubs[id].claim.Tracked? && PubAfter(s.pubs[id], Unavailable).claim.Tracked?
    ensures forall k <- s.inflight :: s.inflight[k].CreateJob? ==> s.inflight[k].id !in Effect(s, c).landed
  {
    assert PubOk(s, id, s.pubs[id]);
  }

  // The publication that moved stands well placed; everyone else was left alone.
  lemma PubMovedKeeps(s: State, c: Call, u: State, id: Id, q: Pub)
    requires Inv(s) && id in s.pubs && Follows(s, u) && StoreOk(u) && u.pubs == s.pubs && u.procs == s.procs
    requires Progress(s.pubs[id], q) && PubOk(Moved(u, id, q), id, q)
    requires InflightOk(Moved(u, id, q))
    requires forall j <- s.pubs :: j != id ==> Undisturbed(s, u, j)
    ensures Inv(Moved(u, id, q)) && Follows(s, Moved(u, id, q))
  {
    hide Inv, Follows, StoreOk, InflightOk, PubOk, ProcOk, Progress;
    InvParts(s);
    var t := Moved(u, id, q);
    MovedFollows(s, u, id, q);
    forall j <- t.pubs | j != id ensures Undisturbed(s, t, j) { assert Undisturbed(s, u, j); }
    StateStays(s, t);
  }

  lemma PubAnswerKeeps(s: State, id: Id, c: Call, q: Pub)
    requires Inv(s) && id in s.pubs && PubCall(id, s.pubs[id]) == Some(c)
    requires q == PubAfter(s.pubs[id], Replied(Perform(s.store, c).1))
    ensures Inv(Moved(Effect(s, c), id, q)) && Follows(s, Moved(Effect(s, c), id, q))
  {
    var u := Effect(s, c);
    PubCallJustified(s, id);
    PubAnswered(s, id);
    EffectFollows(s, c);
    EffectStoreOk(s, c);
    MovedFollows(s, u, id, q);
    PubCreates(s, id, c);
    InflightStays(s, Moved(u, id, q));
    forall j <- s.pubs | j != id ensures Undisturbed(s, u, j) { EffectUndisturbed(s, c, u, j); }
    PubMovedKeeps(s, c, u, id, q);
  }

  lemma PubLossKeeps(s: State, id: Id, c: Call, ticket: nat, q: Pub)
    requires Inv(s) && id in s.pubs && PubCall(id, s.pubs[id]) == Some(c) && ticket !in s.inflight
    requires q == PubAfter(s.pubs[id], Unavailable)
    ensures var t := Moved(Sent(s, ticket, c), id, q); Inv(t) && Follows(s, t)
  {
    var u := Sent(s, ticket, c);
    PubCallJustified(s, id);
    PubLost(s, id, Moved(u, id, q));
    SameFollows(s, s, u);
    MovedFollows(s, u, id, q);
    PubCreates(s, id, c);
    InflightGrows(s, Moved(u, id, q), ticket, c);
    forall j <- s.pubs | j != id ensures Undisturbed(s, u, j) { StillUndisturbed(s, u, j); }
    PubMovedKeeps(s, c, u, id, q);
  }

  lemma ProcAnswerKeeps(s: State, pid: nat, c: Call, q: Proc)
    requires Inv(s) && pid in s.procs && Justified(s, c)
    requires !c.CreateJob? && !c.CreateActive? && ProcOk(Effect(s, c), q)
    ensures var t := ProcAt(Effect(s, c), pid, q); Inv(t) && Follows(s, t)
  {
    var u := Effect(s, c);
    EffectFollows(s, c);
    EffectStoreOk(s, c);
    InflightStays(s, u);
    forall j <- u.pubs ensures Undisturbed(s, u, j) { EffectUndisturbed(s, c, u, j); }
    StateStays(s, u);
    ProcMovesKeep(u, pid, q);
    SameFollows(s, u, u.(procs := s.procs[pid := q]));
  }

  // Processes and lost writes are no part of what the store promises.
  lemma SameFollows(s: State, u: State, t: State)
    requires Follows(s, u) && StoreOk(u) && t.store == u.store && t.pubs == u.pubs && t.landed == u.landed
    ensures Follows(s, t) && StoreOk(t)
  {
    forall j ensures RecordFollows(s, t, j) { assert RecordFollows(s, u, j); }
    forall j <- t.store.jobs | Live(t.store.jobs[j].value) ensures HoldsActive(t, j) { assert HoldsActive(u, j); }
    forall j <- t.store.jobs | EverClaimable(t.store.jobs[j].value) ensures HoldsReceipt(t, j) {
      assert HoldsReceipt(u, j);
    }
  }

  lemma ProcAnswered(s: State, p: Proc, to: Phase, c: Call)
    requires StoreOk(s) && ProcOk(s, p) && ProcCall(s, p, to) == Some(c)
    ensures ProcOk(Effect(s, c), ProcAfter(s, p, to, Replied(Perform(s.store, c).1)))
  {
  }

  lemma ProcReads(s: State, p: Proc)
    requires StoreOk(s) && ProcOk(s, p)
    ensures ProcOk(s, ProcRead(s, p))
  {
  }

  lemma ProcLossKeeps(s: State, pid: nat, c: Call, ticket: nat, q: Proc)
    requires Inv(s) && pid in s.procs && Justified(s, c) && ticket !in s.inflight
    requires !c.CreateJob? && !c.CreateActive? && ProcOk(s, q)
    ensures var t := ProcAt(Sent(s, ticket, c), pid, q); Inv(t) && Follows(s, t)
  {
    hide Inv, Follows, StoreOk, InflightOk, PubOk, ProcOk, Justified, Undisturbed;
    InvParts(s);
    FollowsSelf(s);
    var t := s.(inflight := s.inflight[ticket := c]);
    SameFollows(s, s, t);
    InflightGrows(s, t, ticket, c);
    forall j <- t.pubs ensures Undisturbed(s, t, j) { StillUndisturbed(s, t, j); }
    StateStays(s, t);
    ProcStays(s, t, q);
    ProcMovesKeep(t, pid, q);
    SameFollows(s, s, t.(procs := s.procs[pid := q]));
  }

  lemma ProcMovesKeep(s: State, pid: nat, p: Proc)
    requires Inv(s) && ProcOk(s, p)
    ensures Inv(ProcAt(s, pid, p)) && Follows(s, ProcAt(s, pid, p))
  {
    hide Inv, Follows, StoreOk, PubOk, Undisturbed;
    InvParts(s);
    FollowsSelf(s);
    var t := ProcAt(s, pid, p);
    SameFollows(s, s, t);
    InflightStays(s, t);
    forall j <- t.pubs ensures Undisturbed(s, t, j) { StillUndisturbed(s, t, j); }
    StateStays(s, t);
  }

  lemma LandKeeps(s: State, ticket: nat)
    requires Inv(s) && ticket in s.inflight
    ensures Inv(Step(s, Land(ticket))) && Follows(s, Step(s, Land(ticket)))
  {
    var t, c := Step(s, Land(ticket)), s.inflight[ticket];
    EffectFollows(s, c);
    EffectStoreOk(s, c);
    SameFollows(s, Effect(s, c), t);
    InflightStays(s, t);
    forall j <- t.pubs ensures Undisturbed(s, t, j) { EffectUndisturbed(s, c, t, j); }
    StateStays(s, t);
  }

  lemma PublishFollows(s: State, id: Id, svc: Service, scope: Option<Scope>)
    requires StoreOk(s) && id !in s.pubs
    ensures Follows(s, Step(s, Publish(id, svc, scope))) && StoreOk(Step(s, Publish(id, svc, scope)))
    ensures PubOk(Step(s, Publish(id, svc, scope)), id, Pub(svc, scope, CreatingJob, Untracked))
  {
    var t := Step(s, Publish(id, svc, scope));
    forall j ensures RecordFollows(s, t, j) {}
    forall j <- t.store.jobs | Live(t.store.jobs[j].value) ensures HoldsActive(t, j) { assert HoldsActive(s, j); }
    forall j <- t.store.jobs | EverClaimable(t.store.jobs[j].value) ensures HoldsReceipt(t, j) {
      assert HoldsReceipt(s, j);
    }
  }

  lemma PublishKeeps(s: State, id: Id, svc: Service, scope: Option<Scope>)
    requires Inv(s) && id !in s.pubs
    ensures Inv(Step(s, Publish(id, svc, scope))) && Follows(s, Step(s, Publish(id, svc, scope)))
  {
    hide Follows, StoreOk, PubOk, ProcOk, Undisturbed;
    var t := Step(s, Publish(id, svc, scope));
    PublishFollows(s, id, svc, scope);
    InflightStays(s, t);
    forall j <- t.pubs | j != id ensures Undisturbed(s, t, j) { StillUndisturbed(s, t, j); }
    StateStays(s, t);
  }

  lemma InvParts(s: State)
    requires Inv(s)
    ensures StoreOk(s) && InflightOk(s)
    ensures forall id <- s.pubs :: PubOk(s, id, s.pubs[id])
    ensures forall pid <- s.procs :: ProcOk(s, s.procs[pid])
  {
  }

  lemma FollowsSelf(s: State)
    requires Inv(s)
    ensures Follows(s, s)
  {
  }

  lemma PubStepKeeps(s: State, id: Id, fate: Fate)
    requires Inv(s)
    ensures Inv(Step(s, Action.PubStep(id, fate))) && Follows(s, Step(s, Action.PubStep(id, fate)))
  {
    hide Inv, Follows;
    FollowsSelf(s);
    var t := Step(s, Action.PubStep(id, fate));
    if id !in s.pubs {
      return;
    }
    var p := s.pubs[id];
    var call := PubCall(id, p);
    if call.None? {
      PubReadKeeps(s, id, fate.Answered?);
    } else if fate.Answered? {
      PubAnswerKeeps(s, id, call.value, PubAfter(p, Replied(Perform(s.store, call.value).1)));
    } else if fate.ticket !in s.inflight {
      PubLossKeeps(s, id, call.value, fate.ticket, PubAfter(p, Unavailable));
    }
  }

  // A process that reads, or finds nothing to do.
  lemma ProcQuietKeeps(s: State, pid: nat, readable: bool)
    requires Inv(s) && pid in s.procs
    ensures var q := if s.procs[pid].Moving? || !readable then Finished else ProcRead(s, s.procs[pid]);
            Inv(ProcAt(s, pid, q)) && Follows(s, ProcAt(s, pid, q))
  {
    assert ProcOk(s, s.procs[pid]);
    ProcReads(s, s.procs[pid]);
    ProcMovesKeep(s, pid, if s.procs[pid].Moving? || !readable then Finished else ProcRead(s, s.procs[pid]));
  }

  // All a process's write rests on is what it read and what the store promises.
  lemma ProcWrites(s: State, p: Proc, to: Phase, c: Call)
    requires StoreOk(s) && ProcOk(s, p) && ProcCall(s, p, to) == Some(c)
    ensures Justified(s, c) && !c.CreateJob? && !c.CreateActive?
    ensures ProcOk(s, ProcAfter(s, p, to, Unavailable))
  {
  }

  lemma ProcStepKeeps(s: State, pid: nat, to: Phase, fate: Fate)
    requires Inv(s)
    ensures Inv(Step(s, ProcStep(pid, to, fate))) && Follows(s, Step(s, ProcStep(pid, to, fate)))
  {
    hide Inv, Follows, StoreOk, InflightOk, PubOk, ProcOk, Justified, Effect, ProcAfter, ProcRead;
    FollowsSelf(s);
    if pid !in s.procs {
      return;
    }
    var p := s.procs[pid];
    var call := ProcCall(s, p, to);
    if call.None? {
      ProcQuietKeeps(s, pid, fate.Answered?);
      return;
    }
    InvParts(s);
    ProcWrites(s, p, to, call.value);
    match fate
    case Answered =>
      var q := ProcAfter(s, p, to, Replied(Perform(s.store, call.value).1));
      ProcAnswered(s, p, to, call.value);
      ProcAnswerKeeps(s, pid, call.value, q);
    case Lost(ticket) =>
      if ticket !in s.inflight { ProcLossKeeps(s, pid, call.value, ticket, ProcAfter(s, p, to, Unavailable)); }
  }

  lemma DropKeeps(s: State, ticket: nat)
    requires Inv(s)
    ensures Inv(Step(s, Drop(ticket))) && Follows(s, Step(s, Drop(ticket)))
  {
    hide Inv, Follows, StoreOk, PubOk, ProcOk, Undisturbed;
    InvParts(s);
    FollowsSelf(s);
    var t := Step(s, Drop(ticket));
    SameFollows(s, s, t);
    InflightStays(s, t);
    forall j <- t.pubs ensures Undisturbed(s, t, j) { StillUndisturbed(s, t, j); }
    StateStays(s, t);
  }

  /** Every step keeps the invariant and moves every record along the lifecycle:
      terminal is final, and a record once gone never returns. */
  lemma StepKeeps(s: State, a: Action)
    requires Inv(s)
    ensures Inv(Step(s, a)) && Follows(s, Step(s, a))
  {
    hide Inv, Follows;
    FollowsSelf(s);
    match a
    case Publish(id, svc, scope) => if id !in s.pubs { PublishKeeps(s, id, svc, scope); }
    case Start(pid, proc) => if pid !in s.procs && StartsAs(proc) { ProcMovesKeep(s, pid, proc); }
    case PubStep(id, fate) => PubStepKeeps(s, id, fate);
    case ProcStep(pid, to, fate) => ProcStepKeeps(s, pid, to, fate);
    case Land(ticket) => if ticket in s.inflight { LandKeeps(s, ticket); }
    case Drop(ticket) => DropKeeps(s, ticket);
  }

  lemma {:induction false} RunKeeps(s: State, actions: seq<Action>)
    requires Inv(s)
    ensures Inv(Run(s, actions))
    decreases |actions|
  {
    if actions != [] {
      StepKeeps(s, actions[0]);
      RunKeeps(Step(s, actions[0]), actions[1..]);
    }
  }

  // ---- The promises, over every run ----

  lemma EveryRunSafe(actions: seq<Action>)
    ensures Inv(Run(Init(), actions))
  {
    RunKeeps(Init(), actions);
  }

  /** One pending or running record per Service, and the active key names it. */
  lemma OneLivePerService(actions: seq<Action>, i: Id, j: Id)
    requires var s := Run(Init(), actions);
             && i in s.store.jobs && Live(s.store.jobs[i].value)
             && j in s.store.jobs && Live(s.store.jobs[j].value)
             && i in s.pubs && j in s.pubs && s.pubs[i].svc == s.pubs[j].svc
    ensures i == j
    ensures var s := Run(Init(), actions);
            s.pubs[i].svc in s.store.active && s.store.active[s.pubs[i].svc].value == i
  {
    EveryRunSafe(actions);
    var s := Run(Init(), actions);
    assert HoldsActive(s, i) && HoldsActive(s, j);
  }

  /** Every stored record of a key that was ever claimable is the one its receipt names. */
  lemma ReceiptNamesClaimable(actions: seq<Action>, scope: Scope, i: Id, j: Id)
    requires var s := Run(Init(), actions);
             && i in s.store.jobs && EverClaimable(s.store.jobs[i].value)
             && i in s.pubs && s.pubs[i].scope == Some(scope)
             && j in s.store.jobs && EverClaimable(s.store.jobs[j].value)
             && j in s.pubs && s.pubs[j].scope == Some(scope)
    ensures i == j
    ensures var s := Run(Init(), actions); scope in s.store.receipts && s.store.receipts[scope].value == i
  {
    EveryRunSafe(actions);
    var s := Run(Init(), actions);
    assert HoldsReceipt(s, i) && HoldsReceipt(s, j);
  }

  // ---- Active keys and the records they name ----

  // The call that takes effect in one step.
  function CallOf(s: State, a: Action): Option<Call> {
    match a
    case PubStep(id, fate) => if id in s.pubs && fate.Answered? then PubCall(id, s.pubs[id]) else None
    case ProcStep(pid, to, fate) =>
      if pid in s.procs && fate.Answered? then ProcCall(s, s.procs[pid], to) else None
    case Land(ticket) => if ticket in s.inflight then Some(s.inflight[ticket]) else None
    case _ => None
  }

  lemma CallTakesEffect(s: State, a: Action)
    ensures var c, t := CallOf(s, a), Step(s, a);
            t.store == if c.None? then s.store else Perform(s.store, c.value).0
  {
  }

  lemma CallJustified(s: State, a: Action)
    requires Inv(s) && CallOf(s, a).Some?
    ensures Justified(s, CallOf(s, a).value)
  {
    match a
    case PubStep(id, _) => PubCallJustified(s, id);
    case ProcStep(pid, to, _) => ProcWrites(s, s.procs[pid], to, CallOf(s, a).value);
    case Land(ticket) => assert Justified(s, s.inflight[ticket]);
    case _ =>
  }

  /** The publisher's promise about the active keys: none exists without its record. */
  ghost predicate KeysHaveRecords(s: State) {
    forall svc <- s.store.active :: s.store.active[svc].value in s.store.jobs
  }

  // The delete of a record whose own key still names it, and the claim of a Service for a record that is gone.
  ghost predicate Orphans(s: State, c: Call) {
    match c
    case DeleteJob(id, expected) => At(s.store.jobs, id, expected) && HoldsActive(s, id)
    case CreateActive(svc, holder) => svc !in s.store.active && holder !in s.store.jobs
    case _ => false
  }

  lemma OrphansExactly(s: State, c: Call)
    requires StoreOk(s) && KeysHaveRecords(s)
    ensures var st := Perform(s.store, c).0;
            (forall svc <- st.active :: st.active[svc].value in st.jobs) <==> !Orphans(s, c)
  {
    hide HoldsReceipt, Live, EverClaimable;
    var st := Perform(s.store, c).0;
    match c
    case DeleteJob(id, _) =>
      if Orphans(s, c) {
        var svc := s.pubs[id].svc;
        assert svc in st.active && st.active[svc].value !in st.jobs;
      } else {
        forall svc <- st.active ensures st.active[svc].value in st.jobs {
          assert s.pubs[st.active[svc].value].svc == svc;
        }
      }
    case CreateActive(svc, _) =>
      assert Orphans(s, c) ==> svc in st.active && st.active[svc].value !in st.jobs;
    case _ =>
  }

  /** The promise holds up to, and breaks exactly at, one of those two calls. */
  lemma KeyOutlivesExactly(s: State, a: Action)
    requires Inv(s) && KeysHaveRecords(s)
    ensures KeysHaveRecords(Step(s, a)) <==> (CallOf(s, a).Some? ==> !Orphans(s, CallOf(s, a).value))
  {
    hide PubOk, ProcOk, InflightOk, StoreOk, Orphans;
    CallTakesEffect(s, a);
    hide Step, CallOf;
    if CallOf(s, a).Some? { OrphansExactly(s, CallOf(s, a).value); }
  }

  /** Three kinds of process make those calls: the withdrawal of a keyed publication, a sweeper retiring a
      record whose key was never released, and a claim still to be made, or to land, when its record has
      gone. None of them deletes a pending, running or completed record, or claims for one not yet dead. */
  lemma WhoOrphans(s: State, a: Action)
    requires Inv(s) && CallOf(s, a).Some? && Orphans(s, CallOf(s, a).value)
    ensures match a
            case PubStep(id, _) =>
              (s.pubs[id].step.WithdrawingJob? && s.pubs[id].scope.Some?) || s.pubs[id].step.CreatingActive?
            case ProcStep(pid, _, _) => s.procs[pid].RetiringAt?
            case Land(ticket) => s.inflight[ticket].DeleteJob? || s.inflight[ticket].CreateActive?
            case _ => false
    ensures match CallOf(s, a).value
            case DeleteJob(id, _) => s.store.jobs[id].value.Initializing? || Retirable(s.store.jobs[id].value)
            case CreateActive(_, holder) => Dead(s, holder)
            case _ => false
  {
    CallJustified(s, a);
    if a.PubStep? { assert PubOk(s, a.id, s.pubs[a.id]); }
  }

  // Its one claim of its Service has been made and answered, or has landed.
  ghost predicate Claimed(s: State, id: Id) {
    && id in s.pubs && !s.pubs[id].step.CreatingJob? && !s.pubs[id].step.CreatingActive?
    && (forall t <- s.inflight :: s.inflight[t].CreateActive? ==> s.inflight[t].holder != id)
  }

  /** A publication claims its Service once: the step that gives it the key leaves no further claim to be made
      or to land, so a key it has lost never comes back to it. */
  lemma ClaimsOnce(s: State, a: Action, id: Id)
    requires Inv(s)
    ensures HoldsActive(Step(s, a), id) && !HoldsActive(s, id) ==> !Claimed(s, id) && Claimed(Step(s, a), id)
    ensures Claimed(s, id) ==> Claimed(Step(s, a), id)
  {
    hide Inv, Step, CallOf, Claimed, HoldsActive;
    if HoldsActive(Step(s, a), id) && !HoldsActive(s, id) {
      ClaimTakesEffect(s, a, id);
      ClaimIsLast(s, a, id);
    } else if Claimed(s, id) {
      ClaimedStays(s, a, id);
    }
  }

  lemma ClaimTakesEffect(s: State, a: Action, id: Id)
    requires Inv(s) && HoldsActive(Step(s, a), id) && !HoldsActive(s, id)
    ensures id in s.pubs && CallOf(s, a) == Some(CreateActive(s.pubs[id].svc, id))
    ensures s.pubs[id].svc !in s.store.active
  {
    hide PubOk, ProcOk, InflightOk;
    CallTakesEffect(s, a);
    if CallOf(s, a).Some? { CallJustified(s, a); }
    hide Step, CallOf, Inv;
    InvParts(s);
  }

  lemma ClaimIsLast(s: State, a: Action, id: Id)
    requires Inv(s) && id in s.pubs && CallOf(s, a) == Some(CreateActive(s.pubs[id].svc, id))
    requires s.pubs[id].svc !in s.store.active
    ensures !Claimed(s, id) && Claimed(Step(s, a), id)
  {
    hide ProcOk, StoreOk;
    match a
    case PubStep(j, _) => assert PubOk(s, id, s.pubs[id]);
    case Land(ticket) =>
      assert PubOk(s, id, s.pubs[id]);
      forall u <- s.inflight | s.inflight[u].CreateActive? && s.inflight[u].holder == id ensures u == ticket {
        assert Justified(s, s.inflight[u]);
      }
    case _ =>
  }

  // Only a publication that has not claimed yet sends a claim.
  lemma ClaimedStays(s: State, a: Action, id: Id)
    requires Claimed(s, id)
    ensures Claimed(Step(s, a), id)
  {
    hide Perform, ProcAfter, ProcRead, Permits;
  }

  /** An active key or a receipt exists only for a record that was created before it. */
  lemma RecordBeforeKeys(actions: seq<Action>)
    ensures var s := Run(Init(), actions);
            && (forall svc <- s.store.active :: s.store.active[svc].value in s.landed)
            && (forall scope <- s.store.receipts :: s.store.receipts[scope].value in s.landed)
  {
    EveryRunSafe(actions);
  }

  /** A reservation Publish itself gave back has nothing left to count, now or later. */
  lemma ReturnedLeavesNothing(actions: seq<Action>, id: Id)
    requires var s := Run(Init(), actions); id in s.pubs && s.pubs[id].claim.Returned?
    ensures var s := Run(Init(), actions);
            && (id in s.store.jobs ==> Terminal(s.store.jobs[id].value))
            && !HoldsActive(s, id)
            && (forall t <- s.inflight ::
                  s.inflight[t] != CreateJob(id) && s.inflight[t] != CreateActive(s.pubs[id].svc, id))
  {
    EveryRunSafe(actions);
    var s := Run(Init(), actions);
    assert PubOk(s, id, s.pubs[id]);
    forall t <- s.inflight ensures s.inflight[t] != CreateJob(id) && s.inflight[t] != CreateActive(s.pubs[id].svc, id) {
      assert Justified(s, s.inflight[t]);
    }
  }

  /** A publication that reports Won has just made its record pending, holding both of its keys. */
  lemma WonIsPublished(s: State, id: Id, fate: Fate)
    requires Inv(s) && id in s.pubs && s.pubs[id].step != Ended(Won)
    requires Step(s, Action.PubStep(id, fate)).pubs[id].step == Ended(Won)
    ensures var t := Step(s, Action.PubStep(id, fate));
            && id in t.store.jobs && t.store.jobs[id].value == Pending
            && HoldsActive(t, id) && HoldsReceipt(t, id)
  {
    var p := s.pubs[id];
    assert PubOk(s, id, p);
    assert p.step.Committing? by { OnlyCommitWins(id, p, s.store); }
    CommitPublishes(s, id, p.step.rev);
  }

  lemma OnlyCommitWins(id: Id, p: Pub, st: Store)
    requires p.step != Ended(Won)
    ensures forall a :: PubAfter(p, a).step == Ended(Won) ==> p.step.Committing? && a.Replied? && a.reply.Done?
    ensures forall readable :: PubRead(id, p, st, readable).step != Ended(Won)
  {
  }

  lemma CommitPublishes(s: State, id: Id, rev: nat)
    requires id in s.pubs && PubOk(s, id, s.pubs[id]) && s.pubs[id].step == Committing(rev)
    requires Perform(s.store, UpdateJob(id, Pending, rev)).1.Done?
    ensures var t := Step(s, Action.PubStep(id, Answered));
            && id in t.store.jobs && t.store.jobs[id].value == Pending && HoldsActive(t, id) && HoldsReceipt(t, id)
  {
  }


  /** While a claimable record stands, a keyed request reads its receipt, follows it to that record, and
      clears nothing, whatever happens between its two reads. */
  lemma LookupFindsBinding(actions: seq<Action>, more: seq<Action>, id: Id, scope: Scope, losses: nat)
    requires var s := Run(Init(), actions);
             && id in s.store.jobs && EverClaimable(s.store.jobs[id].value)
             && id in s.pubs && s.pubs[id].scope == Some(scope)
    ensures var s := Run(Init(), actions);
            var t, found := Run(s, more), ProcRead(s, LookingUp(scope, false, losses));
            && found.CheckingHolder? && found.holder == id
            && (ProcRead(t, found) == Finished <==> id in t.store.jobs)
  {
    EveryRunSafe(actions);
    var s := Run(Init(), actions);
    hide Run, PubOk, ProcOk, InflightOk;
    assert HoldsReceipt(s, id);
    ClaimableStays(s, more, id);
  }

  // A record that was ever claimable is so until it is deleted.
  lemma {:induction false} ClaimableStays(s: State, actions: seq<Action>, id: Id)
    requires Inv(s) && id in s.landed && (id in s.store.jobs ==> EverClaimable(s.store.jobs[id].value))
    ensures id in Run(s, actions).store.jobs ==> EverClaimable(Run(s, actions).store.jobs[id].value)
    decreases |actions|
  {
    hide Inv, Step;
    if actions != [] {
      StepKeeps(s, actions[0]);
      assert RecordFollows(s, Step(s, actions[0]), id);
      ClaimableStays(Step(s, actions[0]), actions[1..], id);
    }
  }

  /** Over any run, a dead record stays dead: terminal or gone, and never claimed again. */
  lemma {:induction false} DeadForever(s: State, actions: seq<Action>, id: Id)
    requires Inv(s) && Dead(s, id)
    ensures Dead(Run(s, actions), id)
    decreases |actions|
  {
    if actions != [] {
      StepKeeps(s, actions[0]);
      DeadStays(s, Step(s, actions[0]), id);
      DeadForever(Step(s, actions[0]), actions[1..], id);
    }
  }

  lemma ProcNeverCreates(s: State, p: Proc, to: Phase)
    ensures ProcCall(s, p, to).Some? ==> !ProcCall(s, p, to).value.CreateJob?
  {
  }

  // How the create of one record may come to take effect.
  ghost predicate CreatedBy(s: State, a: Action, id: Id) {
    || (a == Action.PubStep(id, Answered) && id in s.pubs && s.pubs[id].step.CreatingJob?)
    || (a.Land? && a.ticket in s.inflight && s.inflight[a.ticket] == CreateJob(id))
  }

  /** A record is created by its own publication's first write, at once or out of flight, and by nothing else. */
  lemma LandsOnce(s: State, a: Action, id: Id)
    requires Inv(s)
    ensures id in Step(s, a).landed ==> id in s.landed || CreatedBy(s, a, id)
  {
    if a.ProcStep? && a.pid in s.procs { ProcNeverCreates(s, s.procs[a.pid], a.to); }
  }

  // ---- The gap between the two deletes of a withdrawal ----

  // One keyed publication, at some stage, and the bucket with it.
  function KeyedAt(st: Store, step: Stage, claim: Claim, inflight: map<nat, Call>): State {
    State(st, map[7 := Pub(3, Some(5), step, claim)], {7}, inflight, map[])
  }

  const CREATED := Store(1, map[7 := Versioned(Initializing, 1)], map[], map[])
  const CLAIMED := Store(2, map[7 := Versioned(Initializing, 1)], map[3 := Versioned(7, 2)], map[])
  const BARE := Store(3, map[], map[3 := Versioned(7, 2)], map[])

  lemma StepsTo(s: State, a: Action, rest: seq<Action>, t: State)
    requires Step(s, a) == t
    ensures Run(s, [a] + rest) == Run(t, rest) && Run(t, []) == t
  {
    assert ([a] + rest)[1..] == rest;
  }

  const RECEIPT_TWICE: map<nat, Call> := map[0 := CreateReceipt(5, 7), 1 := CreateReceipt(5, 7)]

  const CLAIMING := KeyedAt(CLAIMED, CreatingReceipt(1, 2, First), Tracked, map[])
  const PUB_ANSWERED := Action.PubStep(7, Answered)

  // The publication claims its Service.
  lemma Claims(rest: seq<Action>)
    ensures Run(Init(), [Publish(7, 3, Some(5))] + ([PUB_ANSWERED] + ([PUB_ANSWERED] + rest))) == Run(CLAIMING, rest)
  {
    hide Run;
    var s1 := Init().(pubs := map[7 := Pub(3, Some(5), CreatingJob, Untracked)]);
    var s2 := KeyedAt(CREATED, CreatingActive(1), Untracked, map[]);
    StepsTo(Init(), Publish(7, 3, Some(5)), [PUB_ANSWERED] + ([PUB_ANSWERED] + rest), s1);
    StepsTo(s1, PUB_ANSWERED, [PUB_ANSWERED] + rest, s2);
    StepsTo(s2, PUB_ANSWERED, rest, CLAIMING);
  }

  /** An active key does outlive its record: the withdrawal of a keyed publication whose receipt create
      was lost twice deletes the record first, and here goes no further. */
  lemma KeyWithoutRecord() returns (actions: seq<Action>)
    ensures var s := Run(Init(), actions);
            3 in s.store.active && s.store.active[3].value == 7 && 7 !in s.store.jobs
  {
    hide Run;
    var lost0, lost1 := Action.PubStep(7, Lost(0)), Action.PubStep(7, Lost(1));
    var s4 := KeyedAt(CLAIMED, CreatingReceipt(1, 2, Second), Tracked, map[0 := CreateReceipt(5, 7)]);
    var s5 := KeyedAt(CLAIMED, WithdrawingJob(1, 2), Tracked, RECEIPT_TWICE);
    var rest := [lost0] + ([lost1] + ([PUB_ANSWERED] + []));
    Claims(rest);
    StepsTo(CLAIMING, lost0, [lost1] + ([PUB_ANSWERED] + []), s4);
    StepsTo(s4, lost1, [PUB_ANSWERED] + [], s5);
    StepsTo(s5, PUB_ANSWERED, [], KeyedAt(BARE, WithdrawingActive(2), Tracked, RECEIPT_TWICE));
    actions := [Publish(7, 3, Some(5))] + ([PUB_ANSWERED] + ([PUB_ANSWERED] + rest));
  }
}

/**
 * What each operation on the cached credential makes of the file, from the issuer's answer on,
 * whatever other processes do in between (internal/client/refresh.go:46-50, 117-211;
 * internal/client/login.go:322-333, 413-446).
 */
module RefreshOutcomes {
  import opened Wrappers
  import opened Refresh

  /** The issuer will never take this entry's token again, and its answer says so: any refusal but one that asks
      for time, or the answer to a token it has retired. */
  predicate RefusedForGood(s: State, e: Entry, a: Answer) {
    e.refresh.Some? && (a == Refused(true) || (a.Granted? && e.refresh.value in s.retired))
  }

  // Events of other processes.
  predicate Others(events: seq<Event>, pid: Pid) {
    forall ev <- events :: ev.Steps? ==> ev.pid != pid
  }

  // One step of a process, and what others do after it.
  function Turn(s: State, pid: Pid, luck: Luck, others: seq<Event>): State {
    Run(Next(s, Steps(pid, luck)), others)
  }

  // What is the same while a process stays between taking the lock and releasing it.
  predicate Same(s: State, t: State, pid: Pid) {
    && pid in s.procs && pid in t.procs && t.procs[pid] == s.procs[pid]
    && t.file == s.file && t.lock == s.lock && t.retired == s.retired
  }

  lemma OtherLeaves(s: State, ev: Event, pid: Pid)
    requires Serialized(s) && pid in s.procs && Inside(s.procs[pid]) && (ev.Steps? ==> ev.pid != pid)
    ensures Same(s, Next(s, ev), pid)
  {
    if ev.Steps? && ev.pid in s.procs { assert !Inside(s.procs[ev.pid]); }
  }

  lemma {:induction false} OthersLeave(s: State, others: seq<Event>, pid: Pid)
    requires Serialized(s) && pid in s.procs && Inside(s.procs[pid]) && Others(others, pid)
    ensures Serialized(Run(s, others)) && Same(s, Run(s, others), pid)
    decreases |others|
  {
    hide Serialized, Next;
    if others != [] {
      assert others[0] in others;
      OtherLeaves(s, others[0], pid);
      NextSerialized(s, others[0]);
      OthersLeave(Next(s, others[0]), others[1..], pid);
    }
  }

  // One turn of a process that stays inside: what its step does stays done.
  lemma TurnKeeps(s: State, pid: Pid, luck: Luck, others: seq<Event>)
    requires Serialized(s) && pid in s.procs && Others(others, pid)
    requires pid in Next(s, Steps(pid, luck)).procs && Inside(Next(s, Steps(pid, luck)).procs[pid])
    ensures Serialized(Turn(s, pid, luck, others))
    ensures Same(Next(s, Steps(pid, luck)), Turn(s, pid, luck, others), pid)
  {
    hide Serialized, Next;
    NextSerialized(s, Steps(pid, luck));
    OthersLeave(Next(s, Steps(pid, luck)), others, pid);
  }

  // ---- A refusal ----

  // The process asked the issuer over this entry, which stood in the file, and was refused for good.
  predicate RefusedAt(events: seq<Event>, k: nat, pid: Pid, e: Entry)
    requires k < |events|
  {
    var s, ev := Run(Start(), events[..k]), events[k];
    && ev.Steps? && ev.pid == pid && pid in s.procs && s.procs[pid] == Asking(e) && s.file == Some(e)
    && RefusedForGood(s, e, ev.luck.answer)
  }

  ghost predicate WasRefused(events: seq<Event>, pid: Pid, e: Entry) {
    exists k: nat :: k < |events| && RefusedAt(events, k, pid, e)
  }

  lemma StillRefused(events: seq<Event>, ev: Event, pid: Pid, e: Entry)
    ensures WasRefused(events, pid, e) ==> WasRefused(events + [ev], pid, e)
  {
    if k: nat :| k < |events| && RefusedAt(events, k, pid, e) {
      assert (events + [ev])[..k] == events[..k] && (events + [ev])[k] == events[k];
      assert RefusedAt(events + [ev], k, pid, e);
    }
  }

  lemma RefusedNow(events: seq<Event>, ev: Event, pid: Pid, e: Entry)
    requires var s := Run(Start(), events);
             && ev.Steps? && ev.pid == pid && pid in s.procs && s.procs[pid] == Asking(e) && s.file == Some(e)
             && RefusedForGood(s, e, ev.luck.answer)
    ensures WasRefused(events + [ev], pid, e)
  {
    var n := |events|;
    assert (events + [ev])[..n] == events && (events + [ev])[n] == ev;
    assert RefusedAt(events + [ev], n, pid, e);
  }

  // About to drop an entry.
  predicate Drops(p: Phase, e: Entry) {
    p == Rereading(e) || p == Dropping(e)
  }

  lemma OwnStepDrops(s: State, pid: Pid, p: Phase, luck: Luck, e: Entry)
    requires pid in s.procs && s.procs[pid] == p && (Inside(p) ==> Knows(s, p))
    requires Drops(Step(s, pid, p, luck).procs[pid], e)
    ensures Drops(p, e) || (p == Asking(e) && s.file == Some(e) && RefusedForGood(s, e, luck.answer))
  {
  }

  // Where a process about to drop an entry comes from.
  lemma ComesFrom(s: State, ev: Event, pid: Pid, e: Entry)
    requires Serialized(s) && pid in Next(s, ev).procs && Drops(Next(s, ev).procs[pid], e)
    ensures pid in s.procs
    ensures || Drops(s.procs[pid], e)
            || (&& ev.Steps? && ev.pid == pid && s.procs[pid] == Asking(e) && s.file == Some(e)
                && RefusedForGood(s, e, ev.luck.answer))
  {
    hide Step, RefusedForGood;
    if ev.Steps? && ev.pid in s.procs {
      StepShape(s, ev.pid, s.procs[ev.pid], ev.luck);
      if ev.pid == pid { OwnStepDrops(s, pid, s.procs[pid], ev.luck, e); }
    }
  }

  lemma {:induction false} OnceRefused(events: seq<Event>, pid: Pid, e: Entry)
    requires var s := Run(Start(), events);
             pid in s.procs && Drops(s.procs[pid], e)
    ensures WasRefused(events, pid, e)
    decreases |events|
  {
    hide Next, WasRefused, Serialized, RefusedForGood;
    if events != [] {
      var before, ev := events[..|events| - 1], events[|events| - 1];
      assert before + [ev] == events;
      RunThen(Start(), before, ev);
      StartsSerialized();
      RunSerialized(Start(), before);
      var s := Run(Start(), before);
      ComesFrom(s, ev, pid, e);
      if Drops(s.procs[pid], e) {
        OnceRefused(before, pid, e);
        StillRefused(before, ev, pid, e);
      } else {
        RefusedNow(before, ev, pid, e);
      }
    }
  }

  lemma StartsSerialized()
    ensures Serialized(Start())
  {
  }

  /** The file is emptied only by a logout, or by a refresh whose token, read from the entry that still stands
      there, the issuer refused for good. */
  lemma EmptiedOnlyWhenRefused(events: seq<Event>, ev: Event)
    requires var s := Run(Start(), events); s.file.Some? && Next(s, ev).file.None?
    ensures var s := Run(Start(), events);
            && ev.Steps? && ev.pid in s.procs
            && (s.procs[ev.pid].Deleting? || WasRefused(events, ev.pid, s.file.value))
  {
    StartsSerialized();
    RunSerialized(Start(), events);
    var s := Run(Start(), events);
    hide Run;
    if s.procs[ev.pid].Dropping? { OnceRefused(events, ev.pid, s.file.value); }
  }

  /** After a refusal for good, with its re-read and its delete succeeding, a refresh leaves the file empty. */
  lemma RefusedEntryGoes(events: seq<Event>, pid: Pid, asks: Luck, others: seq<Event>,
                         rereads: Luck, others': seq<Event>, drops: Luck)
    requires var s := Run(Start(), events);
             pid in s.procs && s.procs[pid].Asking? && RefusedForGood(s, s.procs[pid].e, asks.answer)
    requires Others(others, pid) && Others(others', pid) && rereads.ok && drops.ok
    ensures var s := Run(Start(), events);
            Next(Turn(Turn(s, pid, asks, others), pid, rereads, others'), Steps(pid, drops)).file == None
  {
    StartsSerialized();
    RunSerialized(Start(), events);
    var s := Run(Start(), events);
    hide Run, Turn;
    TurnKeeps(s, pid, asks, others);
    var t := Turn(s, pid, asks, others);
    TurnKeeps(t, pid, rereads, others');
  }

  /** After any other answer that grants nothing, or none, the file is what it was when the lock was taken. */
  lemma OtherAnswerKeeps(events: seq<Event>, pid: Pid, looks: Luck, others: seq<Event>,
                         asks: Luck, others': seq<Event>, leaves: Luck)
    requires var s := Run(Start(), events); pid in s.procs && s.procs[pid].Reading?
    requires Others(others, pid) && Others(others', pid)
    requires var t := Turn(Run(Start(), events), pid, looks, others);
             && pid in t.procs && t.procs[pid].Asking?
             && !asks.answer.Granted? && !RefusedForGood(t, t.procs[pid].e, asks.answer)
    ensures var s := Run(Start(), events);
            var u := Turn(Turn(s, pid, looks, others), pid, asks, others');
            && u.file == s.file && Next(u, Steps(pid, leaves)).file == s.file
            && pid in u.procs && u.procs[pid].Leaving?
  {
    StartsSerialized();
    RunSerialized(Start(), events);
    var s := Run(Start(), events);
    hide Run, Turn;
    ReadingStays(s, pid, looks);
    TurnKeeps(s, pid, looks, others);
    TurnKeeps(Turn(s, pid, looks, others), pid, asks, others');
  }

  lemma ReadingStays(s: State, pid: Pid, luck: Luck)
    requires pid in s.procs && s.procs[pid].Reading?
    ensures var t := Next(s, Steps(pid, luck)); t.file == s.file && pid in t.procs && Inside(t.procs[pid])
  {
  }

  // ---- A grant, a login, a logout ----

  /** A granted refresh that is recorded leaves the entry with the token the issuer gave in its place. */
  lemma GrantIsRecorded(events: seq<Event>, pid: Pid, asks: Luck, others: seq<Event>, records: Luck)
    requires var s := Run(Start(), events);
             && pid in s.procs && s.procs[pid].Asking? && s.procs[pid].e.refresh.Some?
             && s.procs[pid].e.refresh.value !in s.retired
    requires asks.answer.Granted? && Others(others, pid) && records.ok && records.onward
    ensures var s := Run(Start(), events);
            var token := if asks.answer.rotates then Some(s.issued) else s.procs[pid].e.refresh;
            Next(Turn(s, pid, asks, others), Steps(pid, records)).file == Some(Entry(token, records.now))
  {
    StartsSerialized();
    RunSerialized(Start(), events);
    var s := Run(Start(), events);
    hide Run, Turn;
    TurnKeeps(s, pid, asks, others);
  }

  /** A login that finds the lock free and writes its entry leaves that entry. */
  lemma LoginStores(events: seq<Event>, pid: Pid, takes: Luck, others: seq<Event>, stores: Luck)
    requires var s := Run(Start(), events); pid in s.procs && s.procs[pid].WantLogin? && s.lock.None?
    requires Others(others, pid) && stores.ok
    ensures var s := Run(Start(), events);
            Next(Turn(s, pid, takes, others), Steps(pid, stores)).file == Some(s.procs[pid].e)
  {
    StartsSerialized();
    RunSerialized(Start(), events);
    var s := Run(Start(), events);
    hide Run, Turn;
    TurnKeeps(s, pid, takes, others);
  }

  /** A logout whose file operations succeed leaves no entry, whatever the issuer answers to the revocation. */
  lemma LogoutEmpties(events: seq<Event>, pid: Pid, inspects: Luck, others: seq<Event>,
                      second: Luck, others': seq<Event>, third: Luck)
    requires var s := Run(Start(), events); pid in s.procs && s.procs[pid].Inspecting? && s.file.Some?
    requires Others(others, pid) && Others(others', pid) && inspects.ok && second.ok && third.ok
    ensures var s := Run(Start(), events);
            Next(Turn(Turn(s, pid, inspects, others), pid, second, others'), Steps(pid, third)).file == None
  {
    StartsSerialized();
    RunSerialized(Start(), events);
    var s := Run(Start(), events);
    hide Run, Turn;
    TurnKeeps(s, pid, inspects, others);
    TurnKeeps(Turn(s, pid, inspects, others), pid, second, others');
  }
}

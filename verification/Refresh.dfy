/**
 * One cached credential shared by any number of client processes: refreshes, logins, logouts and
 * context deletions, serialized by a lock file (internal/client/refresh.go:76-217;
 * internal/client/cache.go:94-169; internal/client/login.go:322-333, 413-446;
 * internal/client/contexts.go:250-275).
 *
 * A process is one step of one operation at a time, in any interleaving. One that dies takes no
 * further step and leaves its lock file behind. Refresh tokens are numbered as they are issued.
 */
module Refresh {
  import opened Wrappers

  type Pid = nat
  type Token = nat

  datatype Entry = Entry(refresh: Option<Token>, obtainedAt: nat)

  datatype Phase =
    // a refresh
    | WantRefresh
    | Reading
    | Asking(e: Entry)
    | Recording(e: Entry, next: Option<Token>)
    | Rereading(e: Entry)
    | Dropping(e: Entry)
    // a login, with the entry it obtained
    | WantLogin(e: Entry)
    | Storing(e: Entry)
    // a logout, or a deleted context
    | WantLogout
    | Inspecting
    | Revoking(e: Entry)
    | Deleting
    // all of them
    | Leaving
    | Gone

  // The issuer and its grants: what it has retired it must not be shown again.
  datatype State = State(
    lock: Option<Pid>,
    file: Option<Entry>,
    procs: map<Pid, Phase>,
    issued: nat,
    retired: set<Token>,
    reused: bool)

  datatype Answer =
    | Unsent                  // the issuer never saw the request
    | Granted(rotates: bool)
    | GrantLost(rotates: bool)  // the issuer acted and the answer did not arrive
    | Refused(permanent: bool)

  // How one step goes: whether its file operation succeeds, whether it goes on, and what it is answered.
  datatype Luck = Luck(ok: bool, onward: bool, answer: Answer, now: nat)

  datatype Event =
    | Refreshes(pid: Pid)
    | LogsIn(pid: Pid, refreshable: bool, now: nat)
    | LogsOut(pid: Pid)
    | Steps(pid: Pid, luck: Luck)

  /** Between taking the lock and releasing it. */
  predicate Inside(p: Phase) {
    !p.WantRefresh? && !p.WantLogin? && !p.WantLogout? && !p.Gone?
  }

  function At(s: State, pid: Pid, p: Phase): State {
    s.(procs := s.procs[pid := p])
  }

  function Grant(s: State, t: Token, rotates: bool): (State, Option<Token>) {
    if rotates then (s.(retired := s.retired + {t}, issued := s.issued + 1), Some(s.issued)) else (s, None)
  }

  function Shown(s: State, t: Token): State {
    s.(reused := s.reused || t in s.retired)
  }

  // The lock file is created only where there is none.
  function Takes(s: State, pid: Pid, p: Phase, luck: Luck): State {
    if s.lock.None? then At(s, pid, p).(lock := Some(pid))
    else if luck.onward then s else At(s, pid, Gone)
  }

  function Step(s: State, pid: Pid, p: Phase, luck: Luck): State {
    match p
    case WantRefresh => Takes(s, pid, Reading, luck)
    case Reading =>
      if luck.ok && s.file.Some? && luck.onward && s.file.value.refresh.Some? then At(s, pid, Asking(s.file.value))
      else At(s, pid, Leaving)
    case Asking(e) =>
      if e.refresh.None? || luck.answer.Unsent? then At(s, pid, Leaving)
      else
        var t, shown := e.refresh.value, Shown(s, e.refresh.value);
        if luck.answer.Refused? then At(shown, pid, if luck.answer.permanent then Rereading(e) else Leaving)
        else if t in s.retired then  // refused for good, if the answer arrives
          At(shown, pid, if luck.answer.Granted? then Rereading(e) else Leaving)
        else
          var (granted, next) := Grant(shown, t, luck.answer.rotates);
          At(granted, pid, if luck.answer.Granted? then Recording(e, next) else Leaving)
    case Recording(e, next) =>
      // onward is false where the new token's expiry cannot be read
      if !luck.onward || !luck.ok then At(s, pid, Leaving)
      else At(s, pid, Leaving).(file := Some(Entry(if next.Some? then next else e.refresh, luck.now)))
    case Rereading(e) =>
      if luck.ok && s.file.Some? && s.file.value.obtainedAt == e.obtainedAt then At(s, pid, Dropping(e))
      else At(s, pid, Leaving)
    case Dropping(_) => At(if luck.ok then s.(file := None) else s, pid, Leaving)
    case WantLogin(e) => Takes(s, pid, Storing(e), luck)
    case Storing(e) => At(if luck.ok then s.(file := Some(e)) else s, pid, Leaving)
    case WantLogout => Takes(s, pid, Inspecting, luck)
    case Inspecting =>
      if !luck.ok || s.file.None? then At(s, pid, Leaving)
      else At(s, pid, if luck.onward && s.file.value.refresh.Some? then Revoking(s.file.value) else Deleting)
    case Revoking(e) =>
      var acts := e.refresh.Some? && (luck.answer.Granted? || luck.answer.GrantLost?);
      At(if acts then s.(retired := s.retired + {e.refresh.value}) else s, pid, Deleting)
    case Deleting => At(if luck.ok then s.(file := None) else s, pid, Leaving)
    case Leaving => At(if luck.ok then s.(lock := None) else s, pid, Gone)
    case Gone => s
  }

  function Next(s: State, ev: Event): State {
    match ev
    case Refreshes(pid) => if pid in s.procs then s else At(s, pid, WantRefresh)
    case LogsIn(pid, refreshable, now) =>
      if pid in s.procs then s
      else if refreshable then At(s, pid, WantLogin(Entry(Some(s.issued), now))).(issued := s.issued + 1)
      else At(s, pid, WantLogin(Entry(None, now)))
    case LogsOut(pid) => if pid in s.procs then s else At(s, pid, WantLogout)
    case Steps(pid, luck) => if pid in s.procs then Step(s, pid, s.procs[pid], luck) else s
  }

  function Start(): State {
    State(None, None, map[], 0, {}, false)
  }

  function Run(s: State, events: seq<Event>): State
    decreases |events|
  {
    if events == [] then s else Run(Next(s, events[0]), events[1..])
  }

  // ---- The lock ----

  // What a process inside knows of the entry it read: nobody else has touched it.
  ghost predicate Knows(s: State, p: Phase) {
    p.Asking? || p.Recording? || p.Rereading? || p.Dropping? || p.Revoking? ==> s.file == Some(p.e)
  }

  ghost predicate Serialized(s: State) {
    forall pid <- s.procs :: Inside(s.procs[pid]) ==> s.lock == Some(pid) && Knows(s, s.procs[pid])
  }

  // What a step does to the lock, the file, and what its process knows.
  ghost predicate Shape(s: State, t: State, pid: Pid, p: Phase) {
    && pid in t.procs && t.procs == s.procs[pid := t.procs[pid]]
    && (if Inside(p) then t.lock == s.lock || (t.lock.None? && t.procs[pid].Gone?)
        else t.file == s.file && (t.lock == s.lock || (s.lock.None? && t.lock == Some(pid))))
    && (Inside(t.procs[pid]) ==> t.lock == Some(pid) && Knows(t, t.procs[pid]))
  }

  lemma StepShape(s: State, pid: Pid, p: Phase, luck: Luck)
    requires pid in s.procs && s.procs[pid] == p && (Inside(p) ==> s.lock == Some(pid) && Knows(s, p))
    ensures Shape(s, Step(s, pid, p, luck), pid, p)
  {
  }

  lemma ShapeSerialized(s: State, t: State, pid: Pid)
    requires Serialized(s) && pid in s.procs && Shape(s, t, pid, s.procs[pid])
    ensures Serialized(t)
  {
    forall q <- t.procs ensures Inside(t.procs[q]) ==> t.lock == Some(q) && Knows(t, t.procs[q]) {
      if q != pid && Inside(s.procs[q]) { assert s.lock == Some(q); }
    }
  }

  lemma NextSerialized(s: State, ev: Event)
    requires Serialized(s)
    ensures Serialized(Next(s, ev))
  {
    if ev.Steps? && ev.pid in s.procs {
      StepShape(s, ev.pid, s.procs[ev.pid], ev.luck);
      hide Step;
      ShapeSerialized(s, Step(s, ev.pid, s.procs[ev.pid], ev.luck), ev.pid);
    }
  }

  lemma {:induction false} RunSerialized(s: State, events: seq<Event>)
    requires Serialized(s)
    ensures Serialized(Run(s, events))
    decreases |events|
  {
    hide Serialized, Next;
    if events != [] {
      NextSerialized(s, events[0]);
      RunSerialized(Next(s, events[0]), events[1..]);
    }
  }

  /** At most one process is between taking the lock and releasing it. */
  lemma MutualExclusion(events: seq<Event>, a: Pid, b: Pid)
    requires var s := Run(Start(), events); a in s.procs && b in s.procs && Inside(s.procs[a]) && Inside(s.procs[b])
    ensures a == b
  {
    RunSerialized(Start(), events);
  }

  /** Every change of the entry is made by the process that holds the lock. */
  lemma ChangesUnderLock(events: seq<Event>, ev: Event)
    requires Next(Run(Start(), events), ev).file != Run(Start(), events).file
    ensures ev.Steps? && Run(Start(), events).lock == Some(ev.pid)
  {
    RunSerialized(Start(), events);
  }

  /** A refresh writes only over the entry it refreshed, so it never revives a deleted one, and it deletes
      only the entry that was refused. */
  lemma RefreshRevivesNothing(events: seq<Event>, pid: Pid, luck: Luck)
    requires pid in Run(Start(), events).procs
    requires var p := Run(Start(), events).procs[pid]; p.Recording? || p.Dropping?
    ensures var s := Run(Start(), events); s.file == Some(s.procs[pid].e)
  {
    RunSerialized(Start(), events);
  }

  // ---- Rotation ----

  // The token a process carries that is not in the file yet.
  function Carried(p: Phase): Option<Token> {
    match p
    case WantLogin(e) => e.refresh
    case Storing(e) => e.refresh
    case Recording(_, next) => next
    case _ => None
  }

  function Filed(s: State): Option<Token> {
    if s.file.Some? then s.file.value.refresh else None
  }

  // The one moment the file may name a retired token: while the lock's holder is about to replace or delete it.
  predicate Replacing(p: Phase) {
    (p.Recording? && p.next.Some?) || p.Deleting?
  }

  /** The file names a retired token and nobody is about to replace it: the next refresh shows it to the issuer. */
  predicate Stranded(s: State) {
    && Filed(s).Some? && Filed(s).value in s.retired
    && !(s.lock.Some? && s.lock.value in s.procs && Replacing(s.procs[s.lock.value]))
  }

  ghost predicate Current(s: State, t: Token) {
    t < s.issued && t !in s.retired
  }

  // A process that has a new token to record holds it in place of a retired one.
  ghost predicate Rotated(s: State, p: Phase) {
    p.Recording? && p.next.Some? ==> p.e.refresh.Some? && p.e.refresh.value in s.retired
  }

  ghost predicate Tokens(s: State) {
    && !Stranded(s)
    && (forall t <- s.retired :: t < s.issued)
    && (Filed(s).Some? ==> Filed(s).value < s.issued)
    && (forall pid <- s.procs :: Rotated(s, s.procs[pid]))
    && (forall pid <- s.procs :: Carried(s.procs[pid]).Some? ==>
          Current(s, Carried(s.procs[pid]).value) && Carried(s.procs[pid]) != Filed(s))
    && (forall a <- s.procs, b <- s.procs | a != b && Carried(s.procs[a]).Some? ::
          Carried(s.procs[a]) != Carried(s.procs[b]))
  }

  /** The three ways to go wrong: a rotation whose answer is lost, a rotated token that is not recorded
      because its write fails or the new token's expiry cannot be read, and an entry that stays on disk
      after its token was revoked. */
  predicate Fair(s: State, ev: Event) {
    ev.Steps? && ev.pid in s.procs ==>
      match s.procs[ev.pid]
      case Asking(e) => e.refresh.Some? ==> ev.luck.answer != GrantLost(true)
      case Recording(_, next) => next.Some? ==> ev.luck.ok && ev.luck.onward
      case Deleting => Filed(s).Some? && Filed(s).value in s.retired ==> ev.luck.ok
      case _ => true
  }

  predicate FairRun(s: State, events: seq<Event>)
    decreases |events|
  {
    events == [] || (Fair(s, events[0]) && FairRun(Next(s, events[0]), events[1..]))
  }

  // What a step does to the tokens: it retires at most the one on file, carries on what it carried or
  // one just issued, and files only what it carried.
  ghost predicate Turns(s: State, t: State, pid: Pid, p: Phase) {
    && pid in t.procs && t.procs == s.procs[pid := t.procs[pid]]
    && s.issued <= t.issued && s.retired <= t.retired && Rotated(t, t.procs[pid])
    && (forall x <- t.retired :: x in s.retired || Filed(s) == Some(x))
    && (var c := Carried(t.procs[pid]); c.None? || c == Carried(p) || (s.issued <= c.value < t.issued))
    && (Filed(t) == Filed(s) || Filed(t).None? || (Filed(t) == Carried(p) && Carried(t.procs[pid]).None?))
    && (Filed(t).Some? && Filed(t).value in t.retired ==>
          (Filed(t) == Filed(s) && t.retired == s.retired && t.lock == s.lock && s.lock != Some(pid))
          || (t.lock == Some(pid) && Replacing(t.procs[pid])))
  }

  lemma TurnsKeep(s: State, t: State, pid: Pid)
    requires Tokens(s) && pid in s.procs && Turns(s, t, pid, s.procs[pid])
    ensures Tokens(t)
  {
    var p, q := s.procs[pid], t.procs[pid];
    forall a <- t.procs | Carried(t.procs[a]).Some?
      ensures Current(t, Carried(t.procs[a]).value) && Carried(t.procs[a]) != Filed(t)
    {
    }
    forall a <- t.procs, b <- t.procs | a != b && Carried(t.procs[a]).Some?
      ensures Carried(t.procs[a]) != Carried(t.procs[b])
    {
    }
  }

  // As much of both invariants as one process's step rests on.
  ghost predicate Here(s: State, pid: Pid, p: Phase) {
    && pid in s.procs && s.procs[pid] == p
    && (Inside(p) ==> s.lock == Some(pid) && Knows(s, p))
    && !Stranded(s) && Rotated(s, p)
    && (Carried(p).Some? ==> Current(s, Carried(p).value))
    && (Filed(s).Some? ==> Filed(s).value < s.issued)
    && s.issued !in s.retired
  }

  lemma IsHere(s: State, pid: Pid)
    requires Serialized(s) && Tokens(s) && pid in s.procs
    ensures Here(s, pid, s.procs[pid])
  {
  }

  lemma RefreshTurns(s: State, pid: Pid, p: Phase, luck: Luck)
    requires Here(s, pid, p) && Fair(s, Steps(pid, luck)) && (p.Asking? || p.Recording? || p.Rereading? || p.Dropping?)
    ensures Turns(s, Step(s, pid, p, luck), pid, p) && Step(s, pid, p, luck).reused == s.reused
  {
  }

  predicate OfLogout(p: Phase) {
    p.WantLogout? || p.Inspecting? || p.Revoking? || p.Deleting?
  }

  lemma LogoutTurns(s: State, pid: Pid, p: Phase, luck: Luck)
    requires Here(s, pid, p) && Fair(s, Steps(pid, luck)) && OfLogout(p)
    ensures Turns(s, Step(s, pid, p, luck), pid, p) && Step(s, pid, p, luck).reused == s.reused
  {
  }

  lemma OtherTurns(s: State, pid: Pid, p: Phase, luck: Luck)
    requires Here(s, pid, p) && Fair(s, Steps(pid, luck)) && !OfLogout(p)
    requires !p.Asking? && !p.Recording? && !p.Rereading? && !p.Dropping?
    ensures Turns(s, Step(s, pid, p, luck), pid, p) && Step(s, pid, p, luck).reused == s.reused
  {
  }

  lemma TurnsOf(s: State, pid: Pid, p: Phase, luck: Luck)
    requires Here(s, pid, p) && Fair(s, Steps(pid, luck))
    ensures Turns(s, Step(s, pid, p, luck), pid, p) && Step(s, pid, p, luck).reused == s.reused
  {
    hide Step, Here, Fair, Turns;
    if p.Asking? || p.Recording? || p.Rereading? || p.Dropping? { RefreshTurns(s, pid, p, luck); }
    else if OfLogout(p) { LogoutTurns(s, pid, p, luck); }
    else { OtherTurns(s, pid, p, luck); }
  }

  lemma ArrivesAs(s: State, pid: Pid, p: Phase, issued: nat)
    requires Tokens(s) && pid !in s.procs && !Replacing(p) && !p.Recording? && s.issued <= issued
    requires Carried(p).Some? ==> Carried(p).value == s.issued < issued
    ensures Tokens(At(s, pid, p).(issued := issued))
  {
    var t := At(s, pid, p).(issued := issued);
    forall a <- t.procs | Carried(t.procs[a]).Some?
      ensures Current(t, Carried(t.procs[a]).value) && Carried(t.procs[a]) != Filed(t)
    {
    }
  }

  lemma ArrivalKeepsTokens(s: State, ev: Event)
    requires Tokens(s) && !ev.Steps?
    ensures Tokens(Next(s, ev)) && Next(s, ev).reused == s.reused
  {
    hide Tokens;
    if ev.pid !in s.procs {
      match ev
      case Refreshes(pid) => ArrivesAs(s, pid, WantRefresh, s.issued);
      case LogsIn(pid, refreshable, now) =>
        if refreshable { ArrivesAs(s, pid, WantLogin(Entry(Some(s.issued), now)), s.issued + 1); }
        else { ArrivesAs(s, pid, WantLogin(Entry(None, now)), s.issued); }
      case LogsOut(pid) => ArrivesAs(s, pid, WantLogout, s.issued);
    }
  }

  lemma NextKeepsTokens(s: State, ev: Event)
    requires Serialized(s) && Tokens(s) && Fair(s, ev)
    ensures Tokens(Next(s, ev)) && Next(s, ev).reused == s.reused
  {
    hide Step, Serialized, Tokens, Fair, Turns, Here;
    if !ev.Steps? {
      ArrivalKeepsTokens(s, ev);
    } else if ev.pid in s.procs {
      IsHere(s, ev.pid);
      TurnsOf(s, ev.pid, s.procs[ev.pid], ev.luck);
      TurnsKeep(s, Next(s, ev), ev.pid);
    }
  }

  lemma {:induction false} RunKeepsTokens(s: State, events: seq<Event>)
    requires Serialized(s) && Tokens(s) && FairRun(s, events)
    ensures Run(s, events).reused == s.reused
    decreases |events|
  {
    hide Serialized, Tokens, Next;
    if events != [] {
      NextSerialized(s, events[0]);
      NextKeepsTokens(s, events[0]);
      RunKeepsTokens(Next(s, events[0]), events[1..]);
    }
  }

  /** While answers arrive, rotated tokens are recorded and revoked ones deleted, an issuer that rotates
      refresh tokens is never shown a retired one, for any number of processes and any interleaving. */
  lemma NeverReused(events: seq<Event>)
    requires FairRun(Start(), events)
    ensures !Run(Start(), events).reused
  {
    RunKeepsTokens(Start(), events);
  }

  // ---- The condition is exact ----

  lemma {:induction false} FairRunKeeps(s: State, events: seq<Event>)
    requires Serialized(s) && Tokens(s) && FairRun(s, events)
    ensures Serialized(Run(s, events)) && Tokens(Run(s, events))
    decreases |events|
  {
    hide Serialized, Tokens, Next;
    if events != [] {
      NextSerialized(s, events[0]);
      NextKeepsTokens(s, events[0]);
      FairRunKeeps(Next(s, events[0]), events[1..]);
    }
  }

  lemma UnfairStrands(s: State, pid: Pid, luck: Luck)
    requires pid in s.procs && Here(s, pid, s.procs[pid]) && !Fair(s, Steps(pid, luck))
    ensures var t := Step(s, pid, s.procs[pid], luck);
            Stranded(t) && t.procs == s.procs[pid := Leaving] && t.lock == Some(pid)
  {
  }

  /** After any fair run, a step leaves a retired token on file with nobody about to replace it if and only
      if it is one of the three. */
  lemma StrandsExactlyWhenUnfair(events: seq<Event>, ev: Event)
    requires FairRun(Start(), events)
    ensures Stranded(Next(Run(Start(), events), ev)) <==> !Fair(Run(Start(), events), ev)
  {
    FairRunKeeps(Start(), events);
    var s := Run(Start(), events);
    hide Run, FairRun, Step;
    if Fair(s, ev) {
      NextKeepsTokens(s, ev);
    } else {
      IsHere(s, ev.pid);
      UnfairStrands(s, ev.pid, ev.luck);
    }
  }

  const GO := Luck(true, true, Granted(true), 0)

  // The process at fault leaves, and another one refreshes.
  function Aftermath(pid: Pid, q: Pid): seq<Event> {
    [Steps(pid, GO), Refreshes(q), Steps(q, GO), Steps(q, GO), Steps(q, GO)]
  }

  lemma StrandedReuses(s: State, pid: Pid, q: Pid)
    requires Stranded(s) && pid in s.procs && s.procs[pid].Leaving? && q !in s.procs
    ensures Run(s, Aftermath(pid, q)).reused
  {
    var s1 := At(s, pid, Gone).(lock := None);
    var s2 := At(s1, q, WantRefresh);
    var s3 := At(s2, q, Reading).(lock := Some(q));
    var s4 := At(s3, q, Asking(s.file.value));
    var s5 := Next(s4, Steps(q, GO));
    var rest := Aftermath(pid, q);
    assert Next(s, rest[0]) == s1 && Next(s1, rest[1]) == s2 && Next(s2, rest[2]) == s3 && Next(s3, rest[3]) == s4;
    assert s5.reused;
    assert rest[1..][1..][1..][1..][1..] == [];
    RunsOn(s, s1, rest);
    RunsOn(s1, s2, rest[1..]);
    RunsOn(s2, s3, rest[1..][1..]);
    RunsOn(s3, s4, rest[1..][1..][1..]);
    RunsOn(s4, s5, rest[1..][1..][1..][1..]);
  }

  lemma RunsOn(s: State, t: State, events: seq<Event>)
    requires events != [] && Next(s, events[0]) == t
    ensures Run(s, events) == Run(t, events[1..]) && Run(t, []) == t
  {
  }

  /** Any unfair step of any fair run can be followed by one refresh that shows the issuer a retired token. */
  lemma UnfairCanReuse(events: seq<Event>, ev: Event, q: Pid)
    requires FairRun(Start(), events) && !Fair(Run(Start(), events), ev)
    requires q != ev.pid && q !in Run(Start(), events).procs
    ensures Run(Start(), events + [ev] + Aftermath(ev.pid, q)).reused
  {
    FairRunKeeps(Start(), events);
    var s := Run(Start(), events);
    RunThen(Start(), events, ev);
    RunSplits(Start(), events + [ev], Aftermath(ev.pid, q));
    hide Run, FairRun;
    IsHere(s, ev.pid);
    UnfairStrands(s, ev.pid, ev.luck);
    StrandedReuses(Next(s, ev), ev.pid, q);
  }

  lemma {:induction false} RunSplits(s: State, before: seq<Event>, after: seq<Event>)
    ensures Run(s, before + after) == Run(Run(s, before), after)
    decreases |before|
  {
    if before == [] {
      assert before + after == after;
    } else {
      assert (before + after)[1..] == before[1..] + after;
      RunSplits(Next(s, before[0]), before[1..], after);
    }
  }

  lemma {:induction false} RunThen(s: State, events: seq<Event>, ev: Event)
    ensures Run(s, events + [ev]) == Next(Run(s, events), ev)
    decreases |events|
  {
    if events == [] {
      assert events + [ev] == [ev];
      assert Run(Next(s, ev), []) == Next(s, ev);
    } else {
      assert (events + [ev])[1..] == events[1..] + [ev];
      RunThen(Next(s, events[0]), events[1..], ev);
    }
  }

  // ---- Each of the three happens ----

  ghost predicate Reaches(events: seq<Event>, s: State) {
    Run(Start(), events) == s && FairRun(Start(), events)
  }

  lemma {:induction false} FairThen(s: State, events: seq<Event>, ev: Event)
    requires FairRun(s, events) && Fair(Run(s, events), ev)
    ensures FairRun(s, events + [ev])
    decreases |events|
  {
    if events == [] {
      assert events + [ev] == [ev];
      assert FairRun(Next(s, ev), []);
    } else {
      assert (events + [ev])[1..] == events[1..] + [ev];
      FairThen(Next(s, events[0]), events[1..], ev);
    }
  }

  lemma Goes(events: seq<Event>, s: State, ev: Event, t: State)
    requires Reaches(events, s) && Fair(s, ev) && Next(s, ev) == t
    ensures Reaches(events + [ev], t)
  {
    hide Next, Start, Fair;
    RunThen(Start(), events, ev);
    FairThen(Start(), events, ev);
  }

  const E0 := Entry(Some(0), 0)

  // Process 1 has logged in and left; process 2 is at some phase.
  function Second(lock: Option<Pid>, p: Phase): State {
    State(lock, Some(E0), map[1 := Gone, 2 := p], 1, {}, false)
  }

  lemma FirstLogsIn() returns (events: seq<Event>)
    ensures Reaches(events, State(None, Some(E0), map[1 := Gone], 1, {}, false))
  {
    assert Reaches([], Start());
    hide Reaches;
    var s1 := State(None, None, map[1 := WantLogin(E0)], 1, {}, false);
    var s2 := s1.(lock := Some(1), procs := map[1 := Storing(E0)]);
    var s3 := s2.(file := Some(E0), procs := map[1 := Leaving]);
    var s4 := s3.(lock := None, procs := map[1 := Gone]);
    events := [] + [LogsIn(1, true, 0)];
    Goes([], Start(), LogsIn(1, true, 0), s1);
    Goes(events, s1, Steps(1, GO), s2);
    events := events + [Steps(1, GO)];
    Goes(events, s2, Steps(1, GO), s3);
    events := events + [Steps(1, GO)];
    Goes(events, s3, Steps(1, GO), s4);
    events := events + [Steps(1, GO)];
  }

  lemma SecondAsks() returns (events: seq<Event>)
    ensures Reaches(events, Second(Some(2), Asking(E0)))
  {
    hide Reaches;
    events := FirstLogsIn();
    Goes(events, State(None, Some(E0), map[1 := Gone], 1, {}, false), Refreshes(2), Second(None, WantRefresh));
    events := events + [Refreshes(2)];
    Goes(events, Second(None, WantRefresh), Steps(2, GO), Second(Some(2), Reading));
    events := events + [Steps(2, GO)];
    Goes(events, Second(Some(2), Reading), Steps(2, GO), Second(Some(2), Asking(E0)));
    events := events + [Steps(2, GO)];
  }

  /** A rotation whose answer was lost. */
  lemma LostAnswerReuses() returns (events: seq<Event>)
    ensures Run(Start(), events).reused
  {
    events := SecondAsks();
    var lost := Steps(2, GO.(answer := GrantLost(true)));
    hide Run, FairRun;
    UnfairCanReuse(events, lost, 3);
    events := events + [lost] + Aftermath(2, 3);
  }

  /** A rotation whose entry could not be written, or whose new token's expiry could not be read:
      the source returns before it writes the rotated token. */
  lemma UnrecordedReuses(luck: Luck) returns (events: seq<Event>)
    requires !luck.ok || !luck.onward
    ensures Run(Start(), events).reused
  {
    events := SecondAsks();
    var recording := State(Some(2), Some(E0), map[1 := Gone, 2 := Recording(E0, Some(1))], 2, {0}, false);
    Goes(events, Second(Some(2), Asking(E0)), Steps(2, GO), recording);
    events := events + [Steps(2, GO)];
    hide Run, FairRun;
    UnfairCanReuse(events, Steps(2, luck), 3);
    events := events + [Steps(2, luck)] + Aftermath(2, 3);
  }

  /** A logout that revoked the token and could not delete the entry. */
  lemma UndeletedReuses() returns (events: seq<Event>)
    ensures Run(Start(), events).reused
  {
    events := SecondDeletes();
    var stuck := Steps(2, GO.(ok := false));
    hide Run, FairRun;
    UnfairCanReuse(events, stuck, 3);
    events := events + [stuck] + Aftermath(2, 3);
  }

  lemma SecondDeletes() returns (events: seq<Event>)
    ensures Reaches(events, Second(Some(2), Deleting).(retired := {0}))
  {
    hide Reaches;
    events := FirstLogsIn();
    Goes(events, State(None, Some(E0), map[1 := Gone], 1, {}, false), LogsOut(2), Second(None, WantLogout));
    events := events + [LogsOut(2)];
    Goes(events, Second(None, WantLogout), Steps(2, GO), Second(Some(2), Inspecting));
    events := events + [Steps(2, GO)];
    Goes(events, Second(Some(2), Inspecting), Steps(2, GO), Second(Some(2), Revoking(E0)));
    events := events + [Steps(2, GO)];
    var retired: set<Token> := {0};
    assert {} + retired == retired;
    Goes(events, Second(Some(2), Revoking(E0)), Steps(2, GO), Second(Some(2), Deleting).(retired := {0}));
    events := events + [Steps(2, GO)];
  }
}

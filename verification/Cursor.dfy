/**
 * The token a listing page carries to the next (internal/httpapi/pgo_collections.go:186-275).
 * A time is written as its decimal count of nanoseconds, which stands for RFC 3339 text: it holds
 * no newline and reads back as the same instant. The base64 around the payload is left out.
 */
module Cursor {
  import opened Wrappers
  import opened Records
  import opened Text

  datatype Bookmark = Bookmark(createdAt: nat, id: string)

  // A since of zero, and no origin, are the absent filters.
  datatype Filters = Filters(states: seq<State>, since: nat, origin: Option<Origin>)

  const VERSION := '1'
  const CURSOR_FIELDS := 5
  const ID_LENGTH := 20
  const ID_ALPHABET := "0123456789abcdefghjkmnpqrstvwxyz"

  predicate ValidID(id: string) {
    |id| == ID_LENGTH && forall c <- id :: c in ID_ALPHABET
  }

  // The states in the order of their names.
  const STATES: seq<State> := [Cancelled, Completed, Expired, Failed, Initializing, Pending, Running]

  function Name(s: State): string {
    match s
    case Cancelled => "cancelled"
    case Completed => "completed"
    case Expired => "expired"
    case Failed => "failed"
    case Initializing => "initializing"
    case Pending => "pending"
    case Running => "running"
    case Unknown(n) => "unknown" + Decimal(n)
  }

  /** The states a set holds, sorted. */
  function Sorted(seen: set<State>): seq<State> {
    Chosen(STATES, seen)
  }

  function Chosen(from: seq<State>, seen: set<State>): seq<State> {
    if from == [] then []
    else (if from[0] in seen then [from[0]] else []) + Chosen(from[1..], seen)
  }

  function StateNamed(name: string): Option<State> {
    if name == "cancelled" then Some(Cancelled)
    else if name == "completed" then Some(Completed)
    else if name == "expired" then Some(Expired)
    else if name == "failed" then Some(Failed)
    else if name == "initializing" then Some(Initializing)
    else if name == "pending" then Some(Pending)
    else if name == "running" then Some(Running)
    else None
  }

  function OriginName(o: Option<Origin>): string {
    if o.None? then "" else if o.value.Schedule? then "schedule" else "api"
  }

  function OriginNamed(name: string): Option<Option<Origin>> {
    if name == "" then Some(None)
    else if name == "schedule" then Some(Some(Schedule))
    else if name == "api" then Some(Some(Api))
    else None
  }

  function ParseTime(s: string): Option<nat> {
    if s != [] && forall c <- s :: IsDigit(c) then Some(Value(s)) else None
  }

  function Names(states: seq<State>): seq<string> {
    if states == [] then [] else [Name(states[0])] + Names(states[1..])
  }

  function Fields(pos: Bookmark, f: Filters): seq<string> {
    [Decimal(pos.createdAt), pos.id, Join(Names(f.states), ','),
     if f.since == 0 then "" else Decimal(f.since), OriginName(f.origin)]
  }

  function Encoded(pos: Bookmark, f: Filters): string {
    [VERSION] + Join(Fields(pos, f), '\n')
  }

  // The set some names stand for; None when one of them is no state.
  function StatesNamed(names: seq<string>): Option<set<State>> {
    if names == [] then Some({})
    else
      var before, last := StatesNamed(names[..|names| - 1]), StateNamed(names[|names| - 1]);
      if before.None? || last.None? then None else Some(before.value + {last.value})
  }

  function Decoded(raw: string): Option<(Bookmark, Filters)> {
    if raw == [] || raw[0] != VERSION then None
    else
      var fields := Split(raw[1..], '\n');
      if |fields| != CURSOR_FIELDS then None
      else
        var createdAt := ParseTime(fields[0]);
        var states := if fields[2] == "" then Some({}) else StatesNamed(Split(fields[2], ','));
        var since := if fields[3] == "" then Some(0) else ParseTime(fields[3]);
        var origin := OriginNamed(fields[4]);
        if createdAt.None? || !ValidID(fields[1]) || states.None? || since.None? || origin.None? then None
        else Some((Bookmark(createdAt.value, fields[1]), Filters(Sorted(states.value), since.value, origin.value)))
  }

  // ---- The code ----

  method EncodeCursor(pos: Bookmark, f: Filters) returns (token: string)
    ensures token == Encoded(pos, f)
  {
    var states: seq<string> := [];
    for i := 0 to |f.states|
      invariant states == Names(f.states[..i])
    {
      NamesMore(f.states[..i], f.states[i]);
      assert f.states[..i + 1] == f.states[..i] + [f.states[i]];
      states := states + [Name(f.states[i])];
    }
    assert f.states[..|f.states|] == f.states;
    var since := "";
    if f.since != 0 {
      since := Decimal(f.since);
    }
    var payload := Join([Decimal(pos.createdAt), pos.id, Join(states, ','), since, OriginName(f.origin)], '\n');
    return [VERSION] + payload;
  }

  lemma {:induction false} NamesMore(states: seq<State>, s: State)
    ensures Names(states + [s]) == Names(states) + [Name(s)]
  {
    if states == [] {
      assert [] + [s] == [s];
    } else {
      NamesMore(states[1..], s);
      assert (states + [s])[1..] == states[1..] + [s];
    }
  }

  method DecodeCursor(raw: string) returns (r: Option<(Bookmark, Filters)>)
    ensures r == Decoded(raw)
  {
    if |raw| == 0 || raw[0] != VERSION {
      return None;
    }
    var fields := Split(raw[1..], '\n');
    if |fields| != CURSOR_FIELDS {
      return None;
    }
    var createdAt := ParseTime(fields[0]);
    if createdAt.None? || !ValidID(fields[1]) {
      return None;
    }
    var seen: set<State> := {};
    if fields[2] != "" {
      var names := Split(fields[2], ',');
      for i := 0 to |names|
        invariant StatesNamed(names[..i]) == Some(seen)
      {
        assert names[..i + 1][..i] == names[..i];
        var state := StateNamed(names[i]);
        if state.None? {
          NoneStays(names, i + 1);
          return None;
        }
        seen := seen + {state.value};
      }
      assert names[..|names|] == names;
    }
    var since: Option<nat> := Some(0);
    if fields[3] != "" {
      since := ParseTime(fields[3]);
      if since.None? {
        return None;
      }
    }
    var origin := OriginNamed(fields[4]);
    if origin.None? {
      return None;
    }
    return Some((Bookmark(createdAt.value, fields[1]), Filters(Sorted(seen), since.value, origin.value)));
  }

  lemma {:induction false} NoneStays(names: seq<string>, i: nat)
    requires i <= |names| && StatesNamed(names[..i]).None?
    ensures StatesNamed(names).None?
    decreases |names| - i
  {
    if i < |names| {
      assert names[..i + 1][..i] == names[..i];
      NoneStays(names, i + 1);
    } else {
      assert names[..i] == names;
    }
  }

  // ---- What a token is worth ----

  /** Known states only, sorted and each once. */
  ghost predicate Canonical(f: Filters) {
    && (forall s <- f.states :: !s.Unknown?)
    && f.states == Sorted(set s <- f.states)
  }

  lemma {:induction false} ChosenHas(from: seq<State>, seen: set<State>)
    ensures forall s :: s in Chosen(from, seen) <==> s in from && s in seen
  {
    if from != [] {
      ChosenHas(from[1..], seen);
      assert from == [from[0]] + from[1..];
    }
  }

  lemma {:induction false} ChosenBy(from: seq<State>, seen: set<State>, other: set<State>)
    requires forall s <- from :: s in seen <==> s in other
    ensures Chosen(from, seen) == Chosen(from, other)
  {
    if from != [] { ChosenBy(from[1..], seen, other); }
  }

  lemma SortedIsCanonical(seen: set<State>, since: nat, origin: Option<Origin>)
    ensures Canonical(Filters(Sorted(seen), since, origin))
    ensures forall i, j | 0 <= i < j < |Sorted(seen)| :: Sorted(seen)[i] != Sorted(seen)[j]
  {
    ChosenHas(STATES, seen);
    ChosenBy(STATES, seen, set s <- Sorted(seen));
    ChosenApart(STATES, seen);
  }

  lemma {:induction false} ChosenApart(from: seq<State>, seen: set<State>)
    requires forall i, j | 0 <= i < j < |from| :: from[i] != from[j]
    ensures forall i, j | 0 <= i < j < |Chosen(from, seen)| :: Chosen(from, seen)[i] != Chosen(from, seen)[j]
  {
    if from != [] {
      ChosenApart(from[1..], seen);
      ChosenHas(from[1..], seen);
    }
  }

  // One text before another, character by character.
  predicate Before(a: string, b: string) {
    b != [] && (a == [] || a[0] < b[0] || (a[0] == b[0] && Before(a[1..], b[1..])))
  }

  predicate InOrder(a: State, b: State) {
    Before(Name(a), Name(b))
  }

  ghost predicate Ascending(states: seq<State>) {
    forall i, j | 0 <= i < j < |states| :: InOrder(states[i], states[j])
  }

  // The one pair of states that share their first letter apart, the letters order the names.
  lemma LettersAscend(a: State, b: State)
    requires !a.Unknown? && !b.Unknown? && Name(a)[0] < Name(b)[0]
    ensures InOrder(a, b)
  {
  }

  lemma SameLetter()
    ensures InOrder(Cancelled, Completed)
  {
    assert Name(Cancelled)[1..] == "ancelled" && Name(Completed)[1..] == "ompleted";
    assert Before("ancelled", "ompleted");
  }

  lemma Letter(s: State, c: char)
    requires !s.Unknown? && c == (if s.Cancelled? || s.Completed? then 'c' else if s.Expired? then 'e'
                                  else if s.Failed? then 'f' else if s.Initializing? then 'i'
                                  else if s.Pending? then 'p' else 'r')
    ensures Name(s) != [] && Name(s)[0] == c
  {
  }

  lemma NamesAscend()
    ensures Ascending(STATES)
  {
    SameLetter();
    Letter(Cancelled, 'c');
    Letter(Completed, 'c');
    Letter(Expired, 'e');
    Letter(Failed, 'f');
    Letter(Initializing, 'i');
    Letter(Pending, 'p');
    Letter(Running, 'r');
    hide Name, InOrder;
    forall i, j | 0 <= i < j < |STATES| ensures InOrder(STATES[i], STATES[j]) {
      if j > 1 { LettersAscend(STATES[i], STATES[j]); }
    }
  }

  lemma {:induction false} ChosenAscends(from: seq<State>, seen: set<State>)
    requires Ascending(from)
    ensures Ascending(Chosen(from, seen))
  {
    hide InOrder;
    if from != [] {
      ChosenAscends(from[1..], seen);
      ChosenHas(from[1..], seen);
      var rest := Chosen(from[1..], seen);
      forall s <- rest ensures InOrder(from[0], s) {
        var k :| 0 <= k < |from| - 1 && from[1..][k] == s;
        assert from[k + 1] == s;
      }
      assert Chosen(from, seen) == if from[0] in seen then [from[0]] + rest else rest;
      assert forall i | 0 <= i < |rest| :: rest[i] in rest;
    }
  }

  /** What is accepted comes back with a valid identifier and known states, each once, in the order of their names. */
  lemma AcceptedIsCanonical(raw: string)
    requires Decoded(raw).Some?
    ensures ValidID(Decoded(raw).value.0.id) && Canonical(Decoded(raw).value.1)
    ensures Ascending(Decoded(raw).value.1.states)
  {
    NamesAscend();
    hide Ascending;
    var f := Decoded(raw).value.1;
    var fields := Split(raw[1..], '\n');
    var states := if fields[2] == "" then Some({}) else StatesNamed(Split(fields[2], ','));
    SortedIsCanonical(states.value, f.since, f.origin);
    ChosenAscends(STATES, states.value);
    assert f.states == Sorted(states.value);
  }

  lemma TimeReadsBack(t: nat)
    ensures ParseTime(Decimal(t)) == Some(t) && '\n' !in Decimal(t) && Decimal(t) != ""
  {
    DecimalReads(t);
  }

  lemma NamePlain(s: State)
    requires !s.Unknown?
    ensures Name(s) != "" && ',' !in Name(s) && '\n' !in Name(s) && StateNamed(Name(s)) == Some(s)
  {
  }

  lemma {:induction false} NamesPlain(states: seq<State>)
    requires forall s <- states :: !s.Unknown?
    ensures |Names(states)| == |states|
    ensures forall n <- Names(states) :: n != "" && ',' !in n && '\n' !in n
  {
    hide Name;
    if states != [] {
      NamesPlain(states[1..]);
      NamePlain(states[0]);
    }
  }

  lemma {:induction false} JoinPlain(parts: seq<string>)
    requires forall n <- parts :: n != "" && '\n' !in n
    ensures '\n' !in Join(parts, ',') && (parts != [] ==> Join(parts, ',') != "")
  {
    if |parts| > 1 {
      assert forall n <- parts[1..] :: n in parts;
      JoinPlain(parts[1..]);
    }
  }

  lemma {:induction false} NamesRead(states: seq<State>)
    requires forall s <- states :: !s.Unknown?
    ensures StatesNamed(Names(states)) == Some(set s <- states)
  {
    hide Name, StateNamed;
    if states != [] {
      var n := |states| - 1;
      var front := states[..n];
      assert forall s <- front :: s in states;
      NamesRead(front);
      NamesMore(front, states[n]);
      NamePlain(states[n]);
      assert states == front + [states[n]];
      assert Names(states) == Names(front) + [Name(states[n])];
      assert Names(states)[..|Names(front)|] == Names(front);
      assert (set s <- states) == (set s <- front) + {states[n]} by {
        forall s ensures s in states <==> s in front || s == states[n] {}
      }
    } else {
      assert (set s <- states) == {};
    }
  }

  lemma StatesReadBack(states: seq<State>)
    requires forall s <- states :: !s.Unknown?
    ensures var text := Join(Names(states), ',');
            && '\n' !in text
            && (if text == "" then Some({}) else StatesNamed(Split(text, ','))) == Some(set s <- states)
  {
    NamesPlain(states);
    JoinPlain(Names(states));
    NamesRead(states);
    if states != [] { SplitUndoesJoin(Names(states), ','); }
  }

  lemma OriginReadsBack(o: Option<Origin>)
    ensures OriginNamed(OriginName(o)) == Some(o) && '\n' !in OriginName(o)
  {
  }

  lemma IDPlain(id: string)
    requires ValidID(id)
    ensures '\n' !in id
  {
    assert '\n' !in ID_ALPHABET;
  }

  lemma FieldsPlain(pos: Bookmark, f: Filters)
    requires ValidID(pos.id) && Canonical(f)
    ensures forall p <- Fields(pos, f) :: '\n' !in p
  {
    hide Split, Join, Decimal, Value, Names, StatesNamed;
    hide Sorted, OriginName, OriginNamed, ParseTime, Canonical, ValidID;
    CanonicalParts(f);
    IDPlain(pos.id);
    TimeReadsBack(pos.createdAt);
    TimeReadsBack(f.since);
    OriginReadsBack(f.origin);
    StatesReadBack(f.states);
  }

  /** A token reads back as the position and the filters it was written from. */
  lemma CursorRoundTrip(pos: Bookmark, f: Filters)
    requires ValidID(pos.id) && Canonical(f)
    ensures Decoded(Encoded(pos, f)) == Some((pos, f))
  {
    hide Split, Join, Decimal, Names, StatesNamed, ParseTime, OriginName, OriginNamed, Canonical, Sorted, ValidID;
    var fields := Fields(pos, f);
    FieldsPlain(pos, f);
    SplitUndoesJoin(fields, '\n');
    assert Encoded(pos, f)[1..] == Join(fields, '\n');
    CanonicalParts(f);
    TimeReadsBack(pos.createdAt);
    TimeReadsBack(f.since);
    OriginReadsBack(f.origin);
    StatesReadBack(f.states);
  }

  lemma CanonicalParts(f: Filters)
    requires Canonical(f)
    ensures (forall s <- f.states :: !s.Unknown?) && f.states == Sorted(set s <- f.states)
  {
  }

  /** So two positions, or two filter sets, never share a token. */
  lemma CursorsDiffer(pos: Bookmark, f: Filters, pos': Bookmark, f': Filters)
    requires ValidID(pos.id) && Canonical(f) && ValidID(pos'.id) && Canonical(f')
    requires Encoded(pos, f) == Encoded(pos', f')
    ensures pos == pos' && f == f'
  {
    CursorRoundTrip(pos, f);
    CursorRoundTrip(pos', f');
  }
}

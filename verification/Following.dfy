/**
 * A watched cache as a place in the history of what it follows: once its replay is
 * complete it shows exactly the content of one position, before that a part of it, and
 * a position never goes back. Module BarrierFollows proves that a watch is one.
 */
module Following {
  datatype Follow<K> = Replaying(at: nat, got: set<K>) | Synced(at: nat)

  datatype Move<K> = Restart(at: nat) | Receive(key: K) | Complete | Advance

  /** One move, over the keys of every content there has been. */
  function Moved<K>(f: Follow<K>, m: Move<K>, contents: seq<set<K>>): Follow<K> {
    match m
    case Restart(at) => if f.at <= at < |contents| then Replaying(at, {}) else f
    case Receive(key) =>
      if f.Replaying? && f.at < |contents| && key in contents[f.at] then f.(got := f.got + {key}) else f
    case Complete => if f.Replaying? && f.at < |contents| && f.got == contents[f.at] then Synced(f.at) else f
    case Advance => if f.Synced? && f.at + 1 < |contents| then Synced(f.at + 1) else f
  }

  predicate Shown<K>(f: Follow<K>, key: K) {
    f.Replaying? ==> key in f.got
  }

  function MovedAll<K>(f: Follow<K>, ms: seq<Move<K>>, contents: seq<set<K>>): Follow<K>
    decreases |ms|
  {
    if ms == [] then f else MovedAll(Moved(f, ms[0], contents), ms[1..], contents)
  }

  // ---- One key family among the contents of the whole bucket ----

  /** The contents of a bucket that is written once a step or not at all, seen through one family:
      step i shows what the first marks[i] writes to the family left. */
  ghost predicate Spread<K>(marks: seq<nat>, all: seq<set<K>>, family: seq<set<K>>) {
    && |marks| == |all| > 0 && marks[|marks| - 1] + 1 == |family|
    && (forall i | 0 <= i < |marks| :: marks[i] < |family| && all[i] == family[marks[i]])
    && (forall i | 0 < i < |marks| :: marks[i - 1] <= marks[i] <= marks[i - 1] + 1)
  }

  ghost predicate Same<K>(marks: seq<nat>, g: Follow<K>, f: Follow<K>) {
    g.at < |marks| && marks[g.at] == f.at && (if f.Synced? then g.Synced? else g.Replaying? && g.got == f.got)
  }

  lemma {:induction false} NextMark<K>(marks: seq<nat>, all: seq<set<K>>, family: seq<set<K>>, i: nat, at: nat)
    returns (j: nat)
    requires Spread(marks, all, family) && i < |marks| && marks[i] <= at < |family|
    ensures i <= j < |marks| && marks[j] == at
    decreases |marks| - i
  {
    if marks[i] == at { j := i; } else { j := NextMark(marks, all, family, i + 1, at); }
  }

  lemma {:induction false} AdvancesTo<K>(i: nat, j: nat, all: seq<set<K>>) returns (ms: seq<Move<K>>)
    requires i <= j < |all|
    ensures MovedAll(Synced(i), ms, all) == Synced(j)
    decreases j - i
  {
    ms := [];
    if i < j {
      var rest := AdvancesTo(i + 1, j, all);
      ms := [Advance] + rest;
      assert ms[1..] == rest;
    }
  }

  /** Following one family is following the whole bucket: each move has its moves there. */
  lemma SpreadMoves<K>(marks: seq<nat>, all: seq<set<K>>, family: seq<set<K>>, g: Follow<K>, f: Follow<K>, m: Move<K>)
    returns (ms: seq<Move<K>>)
    requires Spread(marks, all, family) && Same(marks, g, f)
    ensures Same(marks, MovedAll(g, ms, all), Moved(f, m, family))
  {
    ms := [];
    if Moved(f, m, family) != f {
      match m
      case Restart(at) =>
        var j := NextMark(marks, all, family, g.at, at);
        ms := [Restart(j)];
      case Receive(key) => ms := [Receive(key)];
      case Complete => ms := [Complete];
      case Advance =>
        var j := NextMark(marks, all, family, g.at, f.at + 1);
        ms := AdvancesTo(g.at, j, all);
    }
  }
}

/** Decimal numbers, and splitting and joining on one separator. */
module Text {
  predicate IsDigit(c: char) {
    '0' <= c <= '9'
  }

  function Digit(d: nat): char
    requires d < 10
  {
    '0' + d as char
  }

  function Decimal(n: nat): string {
    if n < 10 then [Digit(n)] else Decimal(n / 10) + [Digit(n % 10)]
  }

  function Value(s: string): nat {
    if s == [] then 0
    else
      var c := s[|s| - 1];
      Value(s[..|s| - 1]) * 10 + if IsDigit(c) then (c - '0') as nat else 0
  }

  lemma {:induction false} DecimalReads(n: nat)
    ensures Decimal(n) != [] && Value(Decimal(n)) == n && forall c <- Decimal(n) :: IsDigit(c)
  {
    if n >= 10 {
      DecimalReads(n / 10);
      assert Decimal(n)[..|Decimal(n)| - 1] == Decimal(n / 10);
    } else {
      assert Decimal(n)[..0] == [];
    }
  }

  function Join(parts: seq<string>, sep: char): string {
    if parts == [] then []
    else if |parts| == 1 then parts[0]
    else parts[0] + [sep] + Join(parts[1..], sep)
  }

  // The text before the first separator, and whether there is one.
  function Until(s: string, sep: char): nat
    ensures Until(s, sep) <= |s|
  {
    if s == [] || s[0] == sep then 0 else 1 + Until(s[1..], sep)
  }

  function Split(s: string, sep: char): (parts: seq<string>)
    ensures parts != []
    decreases |s|
  {
    var n := Until(s, sep);
    if n == |s| then [s] else [s[..n]] + Split(s[n + 1..], sep)
  }

  lemma {:induction false} UntilSeparator(a: string, rest: string, sep: char)
    requires sep !in a
    ensures Until(a, sep) == |a| && Until(a + [sep] + rest, sep) == |a|
  {
    if a == [] {
      assert a + [sep] + rest == [sep] + rest;
    } else {
      UntilSeparator(a[1..], rest, sep);
      assert (a + [sep] + rest)[1..] == a[1..] + [sep] + rest;
    }
  }

  /** Parts that hold no separator come back as they were. */
  lemma {:induction false} SplitUndoesJoin(parts: seq<string>, sep: char)
    requires parts != [] && forall p <- parts :: sep !in p
    ensures Split(Join(parts, sep), sep) == parts
  {
    UntilSeparator(parts[0], Join(parts[1..], sep), sep);
    if |parts| > 1 {
      SplitUndoesJoin(parts[1..], sep);
      var s := Join(parts, sep);
      assert s[..|parts[0]|] == parts[0] && s[|parts[0]| + 1..] == Join(parts[1..], sep);
    }
  }
}

/** The text a receipt key hashes (internal/pgo/caches.go:46-51). */
module ReceiptScope {
  import opened Text

  /** Each field as its length, a colon, and its bytes. */
  function Encoded(fields: seq<string>): string {
    if fields == [] then []
    else Encoded(fields[..|fields| - 1]) + Prefixed(fields[|fields| - 1])
  }

  function Prefixed(field: string): string {
    Decimal(|field|) + ":" + field
  }

  method ScopeBytes(principal: string, namespace: string, service: string, key: string) returns (b: string)
    ensures b == Encoded([principal, namespace, service, key])
  {
    var fields := [principal, namespace, service, key];
    b := "";
    for i := 0 to |fields|
      invariant b == Encoded(fields[..i])
    {
      assert fields[..i + 1][..i] == fields[..i];
      b := b + Decimal(|fields[i]|) + ":" + fields[i];
    }
    assert fields[..|fields|] == fields;
  }

  // The same encoding, read from the front.
  function FromFront(fields: seq<string>): string {
    if fields == [] then [] else Prefixed(fields[0]) + FromFront(fields[1..])
  }

  lemma {:induction false} SameEncoding(fields: seq<string>)
    ensures Encoded(fields) == FromFront(fields)
  {
    if |fields| == 1 {
      assert fields[..0] == [] && fields[1..] == [];
      assert Encoded(fields[..0]) == [];
    } else if |fields| > 1 {
      var n := |fields| - 1;
      SameEncoding(fields[..n]);
      SameEncoding(fields[1..]);
      SameEncoding(fields[1..][..n - 1]);
      assert fields[..n][1..] == fields[1..][..n - 1];
      assert fields[1..][n - 1] == fields[n];
      assert FromFront(fields[1..]) == FromFront(fields[1..][..n - 1]) + Prefixed(fields[n]);
    }
  }

  // A length, a colon, and that many bytes can be read off the front one way only.
  lemma PrefixedApart(a: string, x: string, b: string, y: string)
    requires Prefixed(a) + x == Prefixed(b) + y
    ensures a == b && x == y
  {
    var s, t := Prefixed(a) + x, Prefixed(b) + y;
    DecimalReads(|a|);
    DecimalReads(|b|);
    UntilSeparator(Decimal(|a|), a + x, ':');
    UntilSeparator(Decimal(|b|), b + y, ':');
    assert s == Decimal(|a|) + [':'] + (a + x);
    assert t == Decimal(|b|) + [':'] + (b + y);
    var n := Until(s, ':');
    assert s[..n] == Decimal(|a|) && t[..n] == Decimal(|b|);
    assert s[n + 1..] == a + x && t[n + 1..] == b + y;
    assert (a + x)[..|a|] == a && (b + y)[..|b|] == b;
    assert (a + x)[|a|..] == x && (b + y)[|b|..] == y;
  }

  lemma {:induction false} FromFrontInjective(fs: seq<string>, gs: seq<string>)
    requires |fs| == |gs| && FromFront(fs) == FromFront(gs)
    ensures fs == gs
  {
    if fs != [] {
      PrefixedApart(fs[0], FromFront(fs[1..]), gs[0], FromFront(gs[1..]));
      FromFrontInjective(fs[1..], gs[1..]);
      assert fs == [fs[0]] + fs[1..] && gs == [gs[0]] + gs[1..];
    }
  }

  /** No value can be read as part of the one beside it: equal texts come from equal scopes. */
  lemma ScopeIsInjective(p: string, ns: string, svc: string, key: string,
                         p': string, ns': string, svc': string, key': string)
    requires Encoded([p, ns, svc, key]) == Encoded([p', ns', svc', key'])
    ensures p == p' && ns == ns' && svc == svc' && key == key'
  {
    var fs, gs := [p, ns, svc, key], [p', ns', svc', key'];
    SameEncoding(fs);
    SameEncoding(gs);
    FromFrontInjective(fs, gs);
    assert fs[0] == gs[0] && fs[1] == gs[1] && fs[2] == gs[2] && fs[3] == gs[3];
  }
}

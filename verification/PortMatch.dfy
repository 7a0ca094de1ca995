/** Comparing the ports a spec asks for with the ports a machine has. The source prints each
    pair as "host:guest", sorts both lists of strings and compares them position by position;
    this module proves that to be equality of multisets of pairs. */
module PortMatch {
  import opened Types

  function SpecPairs(ports: seq<VMPort>): (r: seq<(int, int)>)
    ensures |r| == |ports| && forall i :: 0 <= i < |r| ==> r[i] == (ports[i].hostPort as int, ports[i].guestPort as int)
  {
    seq(|ports|, i requires 0 <= i < |ports| => (ports[i].hostPort as int, ports[i].guestPort as int))
  }

  function RuntimePairs(ports: seq<PortSpec>): (r: seq<(int, int)>)
    ensures |r| == |ports| && forall i :: 0 <= i < |r| ==> r[i] == (ports[i].host as int, ports[i].guest as int)
  {
    seq(|ports|, i requires 0 <= i < |ports| => (ports[i].host as int, ports[i].guest as int))
  }

  /** The meaning of a match: every (host, guest) pair occurs equally often on both sides. */
  predicate SamePorts(spec: seq<VMPort>, runtime: seq<PortSpec>) {
    multiset(SpecPairs(spec)) == multiset(RuntimePairs(runtime))
  }

  // ---- Decimal printing -------------------------------------------------------------

  function Digit(d: nat): char
    requires d < 10
  {
    '0' + d as char
  }

  function Digits(n: nat): string {
    if n < 10 then [Digit(n)] else Digits(n / 10) + [Digit(n % 10)]
  }

  /** The `%d` verb. */
  function Dec(n: int): string {
    if n < 0 then "-" + Digits(-n) else Digits(n)
  }

  function Printed(p: (int, int)): string { Dec(p.0) + ":" + Dec(p.1) }

  lemma {:induction false} DigitsShape(n: nat)
    ensures Digits(n) != [] && forall i :: 0 <= i < |Digits(n)| ==> '0' <= Digits(n)[i] <= '9'
  {
    if n >= 10 {
      DigitsShape(n / 10);
    }
  }

  lemma {:induction false} DigitsInjective(m: nat, n: nat)
    requires Digits(m) == Digits(n)
    ensures m == n
  {
    DigitsShape(m / 10);
    DigitsShape(n / 10);
    var s := Digits(m);
    assert s[|s| - 1] == Digit(m % 10) == Digit(n % 10);
    if m >= 10 && n >= 10 {
      assert Digits(m / 10) == s[..|s| - 1] == Digits(n / 10);
      DigitsInjective(m / 10, n / 10);
    }
  }

  lemma DecInjective(m: int, n: int)
    requires Dec(m) == Dec(n)
    ensures m == n
  {
    DigitsShape(if m < 0 then -m else m);
    DigitsShape(if n < 0 then -n else n);
    assert (m < 0) == (Dec(m)[0] == '-') && (n < 0) == (Dec(n)[0] == '-');
    if m < 0 {
      assert Digits(-m) == Dec(m)[1..] == Dec(n)[1..] == Digits(-n);
      DigitsInjective(-m, -n);
    } else {
      DigitsInjective(m, n);
    }
  }

  lemma NoColon(n: int)
    ensures ':' !in Dec(n)
  {
    DigitsShape(if n < 0 then -n else n);
  }

  lemma SplitUnique(a: string, b: string, c: string, d: string)
    requires ':' !in a && ':' !in c
    requires a + ":" + b == c + ":" + d
    ensures a == c && b == d
  {
    var s := a + ":" + b;
    assert s[|a|] == ':' && s[|c|] == ':';
    assert forall i :: 0 <= i < |a| ==> s[i] == a[i] && a[i] in a;
    assert forall i :: 0 <= i < |c| ==> s[i] == c[i] && c[i] in c;
    assert |a| == |c|;
    assert a == s[..|a|] && c == s[..|c|];
    assert b == s[|a| + 1..] && d == s[|c| + 1..];
  }

  /** Printing loses nothing. */
  lemma PrintedInjective(p: (int, int), q: (int, int))
    requires Printed(p) == Printed(q)
    ensures p == q
  {
    hide Dec;
    NoColon(p.0);
    NoColon(q.0);
    SplitUnique(Dec(p.0), Dec(p.1), Dec(q.0), Dec(q.1));
    DecInjective(p.0, q.0);
    DecInjective(p.1, q.1);
  }

  function PrintedAll(ps: seq<(int, int)>): (r: seq<string>)
    ensures |r| == |ps| && forall i :: 0 <= i < |r| ==> r[i] == Printed(ps[i])
  {
    seq(|ps|, i requires 0 <= i < |ps| => Printed(ps[i]))
  }

  lemma {:induction false} PrintedCount(ps: seq<(int, int)>, p: (int, int))
    ensures multiset(PrintedAll(ps))[Printed(p)] == multiset(ps)[p]
  {
    hide Printed;
    if ps != [] {
      var n := |ps| - 1;
      PrintedCount(ps[..n], p);
      assert ps == ps[..n] + [ps[n]];
      assert PrintedAll(ps) == PrintedAll(ps[..n]) + [Printed(ps[n])];
      if Printed(ps[n]) == Printed(p) {
        PrintedInjective(ps[n], p);
      }
    }
  }

  /** Two lists of pairs print to the same strings, up to order, exactly when they hold the
      same pairs, up to order. */
  lemma PrintedMultisets(ps: seq<(int, int)>, qs: seq<(int, int)>)
    ensures multiset(PrintedAll(ps)) == multiset(PrintedAll(qs)) <==> multiset(ps) == multiset(qs)
  {
    hide Printed;
    var a, b := multiset(PrintedAll(ps)), multiset(PrintedAll(qs));
    if a == b {
      forall p ensures multiset(ps)[p] == multiset(qs)[p] {
        PrintedCount(ps, p);
        PrintedCount(qs, p);
      }
    }
    if multiset(ps) == multiset(qs) {
      forall s ensures a[s] == b[s] {
        if s in a {
          var i :| 0 <= i < |ps| && PrintedAll(ps)[i] == s;
          PrintedCount(ps, ps[i]);
          PrintedCount(qs, ps[i]);
        } else if s in b {
          var i :| 0 <= i < |qs| && PrintedAll(qs)[i] == s;
          PrintedCount(ps, qs[i]);
          PrintedCount(qs, qs[i]);
        }
      }
    }
  }

  // ---- Sorting strings --------------------------------------------------------------

  predicate LexLeq(a: string, b: string) {
    a == [] || (b != [] && (a[0] < b[0] || (a[0] == b[0] && LexLeq(a[1..], b[1..]))))
  }

  lemma {:induction false} LexTotal(a: string, b: string)
    ensures LexLeq(a, b) || LexLeq(b, a)
  {
    if a != [] && b != [] {
      LexTotal(a[1..], b[1..]);
    }
  }

  lemma {:induction false} LexAntisymmetric(a: string, b: string)
    requires LexLeq(a, b) && LexLeq(b, a)
    ensures a == b
  {
    if a != [] && b != [] {
      LexAntisymmetric(a[1..], b[1..]);
      assert a == [a[0]] + a[1..] && b == [b[0]] + b[1..];
    }
  }

  lemma {:induction false} LexTransitive(a: string, b: string, c: string)
    requires LexLeq(a, b) && LexLeq(b, c)
    ensures LexLeq(a, c)
  {
    if a != [] && b != [] && c != [] && a[0] == b[0] == c[0] {
      LexTransitive(a[1..], b[1..], c[1..]);
    }
  }

  predicate Sorted(s: seq<string>) {
    forall i, j :: 0 <= i < j < |s| ==> LexLeq(s[i], s[j])
  }

  lemma SameLeast(s: seq<string>, t: seq<string>)
    requires Sorted(s) && Sorted(t) && multiset(s) == multiset(t) && s != [] && t != []
    ensures s[0] == t[0]
  {
    assert s[0] in multiset(t) && t[0] in multiset(s);
    var i :| 0 <= i < |t| && t[i] == s[0];
    var j :| 0 <= j < |s| && s[j] == t[0];
    LexTotal(s[0], s[0]);
    assert LexLeq(s[0], t[0]) by { if j == 0 {} }
    assert LexLeq(t[0], s[0]) by { if i == 0 {} }
    LexAntisymmetric(s[0], t[0]);
  }

  lemma DropHead(s: seq<string>)
    requires s != [] && Sorted(s)
    ensures Sorted(s[1..]) && multiset(s[1..]) == multiset(s) - multiset{s[0]}
  {
    assert s == [s[0]] + s[1..];
  }

  /** A list has only one sorted form. */
  lemma {:induction false} SortedFormUnique(s: seq<string>, t: seq<string>)
    requires Sorted(s) && Sorted(t) && multiset(s) == multiset(t)
    ensures s == t
  {
    assert |multiset(s)| == |s| && |multiset(t)| == |t|;
    if s != [] {
      SameLeast(s, t);
      DropHead(s);
      DropHead(t);
      SortedFormUnique(s[1..], t[1..]);
      assert s == [s[0]] + s[1..] && t == [t[0]] + t[1..];
    }
  }

  /** Stands for the library sort; only its contract is used. */
  method SortStrings(s: seq<string>) returns (t: seq<string>)
    ensures Sorted(t) && multiset(t) == multiset(s)
  {
    hide LexLeq, Inserted;
    t := [];
    for i := 0 to |s|
      invariant Sorted(t) && multiset(t) == multiset(s[..i])
    {
      var k := InsertionPoint(t, s[i]);
      InsertedCount(t, k, s[i]);
      InsertedSorted(t, k, s[i]);
      t := Inserted(t, k, s[i]);
      assert s[..i + 1] == s[..i] + [s[i]];
    }
    assert s[..|s|] == s;
  }

  method InsertionPoint(t: seq<string>, x: string) returns (k: nat)
    requires Sorted(t)
    ensures k <= |t|
    ensures forall j :: 0 <= j < k ==> LexLeq(t[j], x)
    ensures forall j :: k <= j < |t| ==> LexLeq(x, t[j])
  {
    k := 0;
    while k < |t| && LexLeq(t[k], x)
      invariant k <= |t| && forall j :: 0 <= j < k ==> LexLeq(t[j], x)
    {
      k := k + 1;
    }
    if k < |t| {
      LexTotal(x, t[k]);
      forall j | k < j < |t| ensures LexLeq(x, t[j]) {
        LexTransitive(x, t[k], t[j]);
      }
    }
  }

  function Inserted(t: seq<string>, k: nat, x: string): seq<string>
    requires k <= |t|
  {
    t[..k] + [x] + t[k..]
  }

  lemma InsertedCount(t: seq<string>, k: nat, x: string)
    requires k <= |t|
    ensures multiset(Inserted(t, k, x)) == multiset(t) + multiset{x}
  {
    assert t == t[..k] + t[k..];
  }

  lemma InsertedSorted(t: seq<string>, k: nat, x: string)
    requires k <= |t| && Sorted(t)
    requires forall j :: 0 <= j < k ==> LexLeq(t[j], x)
    requires forall j :: k <= j < |t| ==> LexLeq(x, t[j])
    ensures Sorted(Inserted(t, k, x))
  {
    hide LexLeq;
    var r := Inserted(t, k, x);
    forall i, j | 0 <= i < j < |r| ensures LexLeq(r[i], r[j]) {
      assert r[i] == if i < k then t[i] else if i == k then x else t[i - 1];
      assert r[j] == if j < k then t[j] else if j == k then x else t[j - 1];
    }
  }

  // ---- The comparison as the source runs it ------------------------------------------

  method PrintPorts(spec: seq<VMPort>, runtime: seq<PortSpec>) returns (specPorts: seq<string>, runtimePorts: seq<string>)
    ensures specPorts == PrintedAll(SpecPairs(spec)) && runtimePorts == PrintedAll(RuntimePairs(runtime))
  {
    hide Dec;
    specPorts := [];
    for i := 0 to |spec|
      invariant specPorts == PrintedAll(SpecPairs(spec))[..i]
    {
      specPorts := specPorts + [Dec(spec[i].hostPort) + ":" + Dec(spec[i].guestPort)];
    }
    runtimePorts := [];
    for i := 0 to |runtime|
      invariant runtimePorts == PrintedAll(RuntimePairs(runtime))[..i]
    {
      runtimePorts := runtimePorts + [Dec(runtime[i].host) + ":" + Dec(runtime[i].guest)];
    }
  }

  method ComparePorts(spec: seq<VMPort>, runtime: seq<PortSpec>) returns (same: bool)
    ensures same <==> SamePorts(spec, runtime)
  {
    hide Printed, PrintedAll;
    if |spec| != |runtime| {
      assert |multiset(SpecPairs(spec))| != |multiset(RuntimePairs(runtime))|;
      return false;
    }
    var specPorts, runtimePorts := PrintPorts(spec, runtime);
    PrintedMultisets(SpecPairs(spec), RuntimePairs(runtime));
    same := SortAndCompare(specPorts, runtimePorts);
  }

  method SortAndCompare(a: seq<string>, b: seq<string>) returns (same: bool)
    requires |a| == |b|
    ensures same <==> multiset(a) == multiset(b)
  {
    var specPorts := SortStrings(a);
    var runtimePorts := SortStrings(b);
    assert |multiset(specPorts)| == |multiset(a)| && |multiset(runtimePorts)| == |multiset(b)|;
    for i := 0 to |specPorts|
      invariant specPorts[..i] == runtimePorts[..i]
    {
      if specPorts[i] != runtimePorts[i] {
        if multiset(specPorts) == multiset(runtimePorts) {
          SortedFormUnique(specPorts, runtimePorts);
        }
        return false;
      }
    }
    assert specPorts == runtimePorts;
    return true;
  }
}

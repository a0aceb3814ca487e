/** Order of strings by their first differing character, a proper prefix coming first. */
module Lexical {

  predicate Less(a: string, b: string) {
    if b == "" then false
    else if a == "" then true
    else a[0] < b[0] || (a[0] == b[0] && Less(a[1..], b[1..]))
  }

  predicate AtMost(a: string, b: string) {
    a == b || Less(a, b)
  }

  /** The two strings agree before this position, and the first one is smaller there or ends there. */
  predicate FirstDiffer(a: string, b: string, k: int) {
    0 <= k <= |a| && k < |b| && a[..k] == b[..k] && (k == |a| || a[k] < b[k])
  }

  /** The order is that of the first differing character, a proper prefix coming first. */
  lemma {:induction false} LessIff(a: string, b: string)
    ensures Less(a, b) <==> exists k :: FirstDiffer(a, b, k)
  {
    if b != "" && a == "" {
      assert FirstDiffer(a, b, 0);
    } else if a != "" && b != "" {
      LessIff(a[1..], b[1..]);
      if a[0] < b[0] {
        assert FirstDiffer(a, b, 0);
      }
      if a[0] == b[0] && Less(a[1..], b[1..]) {
        var k :| FirstDiffer(a[1..], b[1..], k);
        assert a[..k + 1] == [a[0]] + a[1..][..k] && b[..k + 1] == [b[0]] + b[1..][..k];
        assert FirstDiffer(a, b, k + 1);
      }
      if k :| FirstDiffer(a, b, k) {
        if k > 0 {
          assert a[..k][0] == b[..k][0];
          assert a[1..][..k - 1] == a[..k][1..] && b[1..][..k - 1] == b[..k][1..];
          assert FirstDiffer(a[1..], b[1..], k - 1);
        }
      }
    }
  }

  lemma {:induction false} Irreflexive(a: string)
    ensures !Less(a, a)
  {
    if a != "" {
      Irreflexive(a[1..]);
    }
  }

  lemma {:induction false} Transitive(a: string, b: string, c: string)
    requires Less(a, b) && Less(b, c)
    ensures Less(a, c)
  {
    if a != "" && a[0] == b[0] == c[0] {
      Transitive(a[1..], b[1..], c[1..]);
    }
  }

  lemma {:induction false} Total(a: string, b: string)
    ensures Less(a, b) || a == b || Less(b, a)
  {
    if a != "" && b != "" && a[0] == b[0] {
      Total(a[1..], b[1..]);
      assert a == [a[0]] + a[1..] && b == [b[0]] + b[1..];
    }
  }

  lemma Asymmetric(a: string, b: string)
    requires Less(a, b)
    ensures !Less(b, a)
  {
    if Less(b, a) {
      Transitive(a, b, a);
      Irreflexive(a);
    }
  }

  /** With heads of one length, the heads decide unless they are equal. */
  lemma {:induction false} Concatenation(a: string, b: string, c: string, d: string)
    requires |a| == |c|
    ensures Less(a + b, c + d) <==> Less(a, c) || (a == c && Less(b, d))
  {
    if a == "" {
      assert a + b == b && c + d == d;
    } else {
      Concatenation(a[1..], b, c[1..], d);
      assert (a + b)[1..] == a[1..] + b && (c + d)[1..] == c[1..] + d;
      assert a == [a[0]] + a[1..] && c == [c[0]] + c[1..];
    }
  }

  /** The elements of a set in increasing order, which is how Swift's `sorted()` lists a dictionary's keys. */
  ghost function Sorted(s: set<string>): (r: seq<string>)
    ensures forall x :: x in r <==> x in s
    ensures |r| == |s|
    decreases |s|
  {
    if s == {} then []
    else
      LeastExists(s);
      var m :| m in s && forall x :: x in s ==> AtMost(m, x);
      [m] + Sorted(s - {m})
  }

  lemma LeastExists(s: set<string>)
    requires s != {}
    ensures exists m :: m in s && forall x :: x in s ==> AtMost(m, x)
  {
    hide AtMost;
    var m := Least(s);
  }

  lemma {:induction false} Least(s: set<string>) returns (m: string)
    requires s != {}
    ensures m in s && forall x :: x in s ==> AtMost(m, x)
    decreases |s|
  {
    hide Less;
    var y :| y in s;
    m := y;
    assert s == (s - {y}) + {y};
    if s - {y} != {} {
      var least := Least(s - {y});
      m := if Less(y, least) then y else least;
      Total(least, y);
      forall x | x in s ensures AtMost(m, x) {
        if x != y && m == y {
          assert AtMost(least, x);
          Below(y, least, x);
        }
      }
    }
  }

  lemma Below(a: string, b: string, c: string)
    requires Less(a, b) && AtMost(b, c)
    ensures AtMost(a, c)
  {
    hide Less;
    if b != c {
      Transitive(a, b, c);
    }
  }

  lemma LeastIsUnique(s: set<string>, a: string, b: string)
    requires a in s && forall x :: x in s ==> AtMost(a, x)
    requires b in s && forall x :: x in s ==> AtMost(b, x)
    ensures a == b
  {
    if a != b {
      Asymmetric(a, b);
    }
  }

  /** Peeling off any least element gives the sorted listing. */
  lemma SortedPeel(s: set<string>, m: string)
    requires m in s && forall x :: x in s ==> AtMost(m, x)
    ensures Sorted(s) == [m] + Sorted(s - {m})
  {
    LeastExists(s);
    var k := Sorted(s)[0];
    assert k in Sorted(s);
    assert forall x :: x in s ==> AtMost(k, x) && Sorted(s) == [k] + Sorted(s - {k});
    LeastIsUnique(s, k, m);
  }

  predicate Increasing(r: seq<string>) {
    forall i, j :: 0 <= i < j < |r| ==> Less(r[i], r[j])
  }

  lemma ConsIncreases(m: string, r: seq<string>)
    requires Increasing(r) && forall x :: x in r ==> Less(m, x)
    ensures Increasing([m] + r)
  {
    hide Less;
  }

  lemma {:induction false} SortedIncreases(s: set<string>)
    ensures Increasing(Sorted(s))
    decreases |s|
  {
    if s != {} {
      LeastExists(s);
      var m :| m in s && forall x :: x in s ==> AtMost(m, x);
      SortedPeel(s, m);
      SortedIncreases(s - {m});
      hide Sorted, Increasing, Less;
      ConsIncreases(m, Sorted(s - {m}));
    }
  }
}

/**
 Lexicographic order on strings, as used by ordered maps and ordered tables,
 and the one strictly sorted listing of a finite set of keys.
 */
module Ordering {

  predicate LexLess(a: string, b: string) {
    b != [] && (a == [] || a[0] < b[0] || (a[0] == b[0] && LexLess(a[1..], b[1..])))
  }

  predicate LexLeq(a: string, b: string) {
    a == b || LexLess(a, b)
  }

  lemma {:induction false} LexIrreflexive(a: string)
    ensures !LexLess(a, a)
  {
    if a != [] {
      LexIrreflexive(a[1..]);
    }
  }

  lemma {:induction false} LexTransitive(a: string, b: string, c: string)
    requires LexLess(a, b) && LexLess(b, c)
    ensures LexLess(a, c)
  {
    if a != [] && a[0] == b[0] && b[0] == c[0] {
      LexTransitive(a[1..], b[1..], c[1..]);
    }
  }

  lemma {:induction false} LexTotal(a: string, b: string)
    ensures a == b || LexLess(a, b) || LexLess(b, a)
  {
    if a != [] && b != [] && a[0] == b[0] {
      LexTotal(a[1..], b[1..]);
      assert a == [a[0]] + a[1..] && b == [b[0]] + b[1..];
    }
  }

  /** A shared prefix does not take part in the comparison. */
  lemma {:induction false} LexPrefix(p: string, a: string, b: string)
    ensures LexLess(p + a, p + b) <==> LexLess(a, b)
  {
    if p == [] {
      assert p + a == a && p + b == b;
    } else {
      assert (p + a)[1..] == p[1..] + a && (p + b)[1..] == p[1..] + b;
      LexPrefix(p[1..], a, b);
    }
  }

  /** Two strings that differ at a common position are ordered there, whatever follows. */
  lemma {:induction false} LexFirstDifference(a: string, b: string, k: nat, x: string, y: string)
    requires k < |a| && k < |b| && a[..k] == b[..k] && a[k] < b[k]
    ensures LexLess(a + x, b + y)
  {
    var p := a[..k];
    assert a + x == p + (a[k..] + x);
    assert b + y == p + (b[k..] + y);
    LexPrefix(p, a[k..] + x, b[k..] + y);
  }

  ghost predicate StrictlySorted(s: seq<string>) {
    forall i, j :: 0 <= i < j < |s| ==> LexLess(s[i], s[j])
  }

  predicate IsLeast(k: string, s: set<string>) {
    k in s && forall x :: x in s ==> LexLeq(k, x)
  }

  lemma {:induction false} LeastKeyExists(s: set<string>)
    requires s != {}
    ensures exists k :: IsLeast(k, s)
  {
    var y :| y in s;
    var rest := s - {y};
    if rest == {} {
      assert s == {y};
      assert IsLeast(y, s);
    } else {
      LeastKeyExists(rest);
      var k :| IsLeast(k, rest);
      AddLeast(k, y, rest);
      assert s == rest + {y};
    }
  }

  lemma {:induction false} AddLeast(k: string, y: string, rest: set<string>)
    requires IsLeast(k, rest)
    ensures IsLeast(k, rest + {y}) || IsLeast(y, rest + {y})
  {
    LexTotal(k, y);
    if LexLess(y, k) {
      forall x | x in rest ensures LexLeq(y, x) {
        assert LexLeq(k, x);
        if x != k {
          LexTransitive(y, k, x);
        }
      }
      assert IsLeast(y, rest + {y});
    } else {
      assert IsLeast(k, rest + {y});
    }
  }

  lemma {:induction false} LeastKeyUnique(s: set<string>, k: string, l: string)
    requires IsLeast(k, s) && IsLeast(l, s)
    ensures k == l
  {
    assert LexLeq(k, l) && LexLeq(l, k);
    if k != l {
      LexTransitive(k, l, k);
      LexIrreflexive(k);
    }
  }

  function LeastKey(s: set<string>): (k: string)
    requires s != {}
    ensures IsLeast(k, s)
  {
    LeastKeyExists(s);
    assert forall k, l | IsLeast(k, s) && IsLeast(l, s) :: k == l by {
      forall k, l | IsLeast(k, s) && IsLeast(l, s) ensures k == l {
        LeastKeyUnique(s, k, l);
      }
    }
    var k :| k in s && IsLeast(k, s);
    k
  }

  /** The order in which an ordered table hands out the keys it holds. */
  function SortedKeys(s: set<string>): (r: seq<string>)
    ensures forall x :: x in r <==> x in s
    ensures StrictlySorted(r)
  {
    if s == {} then []
    else
      var k := LeastKey(s);
      var tail := SortedKeys(s - {k});
      assert StrictlySorted([k] + tail) by {
        forall i, j | 0 <= i < j < |tail| + 1 ensures LexLess(([k] + tail)[i], ([k] + tail)[j]) {
          assert tail[j - 1] in s - {k};
          assert LexLeq(k, tail[j - 1]);
        }
      }
      [k] + tail
  }

  /** A strictly sorted listing is determined by its elements. */
  lemma {:induction false} SortedUnique(a: seq<string>, b: seq<string>)
    requires StrictlySorted(a) && StrictlySorted(b)
    requires forall x :: x in a <==> x in b
    ensures a == b
  {
    SomeMember(a);
    SomeMember(b);
    if a != [] && b != [] {
      HeadIsLeast(a, b);
      HeadIsLeast(b, a);
      if a[0] != b[0] {
        LexTransitive(a[0], b[0], a[0]);
        LexIrreflexive(a[0]);
        assert false;
      }
      TailElements(a);
      TailElements(b);
      SortedUnique(a[1..], b[1..]);
      assert a == [a[0]] + a[1..] && b == [b[0]] + b[1..];
    }
  }

  lemma {:induction false} SomeMember(a: seq<string>)
    ensures a == [] || exists x :: x in a
  {
    if a != [] {
      assert a[0] in a;
    }
  }

  lemma {:induction false} HeadIsLeast(a: seq<string>, b: seq<string>)
    requires StrictlySorted(a) && a != [] && b != []
    requires forall x :: x in a <==> x in b
    ensures LexLeq(a[0], b[0])
  {
    assert b[0] in a;
    var i :| 0 <= i < |a| && a[i] == b[0];
  }

  lemma {:induction false} TailElements(a: seq<string>)
    requires StrictlySorted(a) && a != []
    ensures StrictlySorted(a[1..])
    ensures forall x :: x in a[1..] <==> x in a && x != a[0]
  {
    forall x ensures x in a[1..] <==> x in a && x != a[0] {
      if x in a[1..] {
        var i :| 0 <= i < |a[1..]| && a[1..][i] == x;
        assert a[i + 1] == x && LexLess(a[0], a[i + 1]);
        LexIrreflexive(x);
      }
      if x in a && x != a[0] {
        var i :| 0 <= i < |a| && a[i] == x;
        assert a[1..][i - 1] == x;
      }
    }
  }
}

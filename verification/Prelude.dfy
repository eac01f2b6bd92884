/** Shared failure-free wrappers used by every other module. */
module Prelude {

  datatype Option<+T> = None | Some(value: T)

  datatype Result<+T, +E> = Ok(value: T) | Err(error: E)

  type Byte = x: int | 0 <= x < 256

  type Bytes = seq<Byte>

  lemma {:induction false} Assoc<T>(a: seq<T>, b: seq<T>, c: seq<T>)
    ensures (a + b) + c == a + (b + c)
  {
  }

  ghost function Elements<T(!new)>(s: seq<T>): (r: set<T>)
    ensures forall x :: x in r <==> x in s
  {
    set x | x in s
  }

  ghost predicate Distinct<T>(s: seq<T>) {
    forall i, j :: 0 <= i < j < |s| ==> s[i] != s[j]
  }

  lemma {:induction false} CountDistinct<T(!new)>(s: seq<T>)
    requires Distinct(s)
    ensures |Elements(s)| == |s|
  {
    if s != [] {
      var t := s[..|s| - 1];
      CountDistinct(t);
      assert s == t + [s[|s| - 1]];
      assert Elements(s) == Elements(t) + {s[|s| - 1]};
    }
  }

  /** As many distinct elements as the set holds, all taken from it: nothing is missing. */
  lemma {:induction false} DistinctExhausts<T(!new)>(s: seq<T>, all: set<T>)
    requires Distinct(s) && |s| == |all| && forall x :: x in s ==> x in all
    ensures forall x :: x in all ==> x in s
  {
    CountDistinct(s);
    var got := Elements(s);
    assert all == got + (all - got);
    assert |all - got| == 0;
    forall x | x in all ensures x in s {
      assert x in got || x in all - got;
    }
  }

  lemma {:induction false} DistinctTail<T(!new)>(s: seq<T>)
    requires Distinct(s) && s != []
    ensures Distinct(s[1..]) && s[0] !in s[1..]
    ensures forall x :: x in s[1..] <==> x in s && x != s[0]
  {
    assert s == [s[0]] + s[1..];
    forall x | x in s[1..] ensures x != s[0] {
      var k :| 0 <= k < |s[1..]| && s[1..][k] == x;
      assert s[0] != s[k + 1];
    }
  }

  lemma {:induction false} EmptyOrMember<T(!new)>(s: seq<T>)
    ensures s == [] || s[0] in s
  {
  }
}

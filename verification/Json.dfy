/**
 JSON values and their canonical form (crates/nclav-store/src/state.rs).

 An object is an ordered list of fields, so that the iteration order of the map
 it came from is visible; `WellFormed` says that keys are distinct at every depth.
 A number is kept as its printed text.
 */
module Json {
  import opened Prelude
  import opened Ordering

  datatype Json =
    | JNull
    | JBool(b: bool)
    | JNum(text: string)
    | JStr(s: string)
    | JArr(items: seq<Json>)
    | JObj(fields: seq<Field>)

  datatype Field = Field(key: string, val: Json)

  ghost predicate DistinctKeys(fs: seq<Field>) {
    forall i, j :: 0 <= i < j < |fs| ==> fs[i].key != fs[j].key
  }

  ghost predicate WellFormed(v: Json) {
    match v
    case JArr(items) => forall i :: 0 <= i < |items| ==> WellFormed(items[i])
    case JObj(fields) =>
      && DistinctKeys(fields)
      && forall i :: 0 <= i < |fields| ==> WellFormed(fields[i].val)
    case _ => true
  }

  /** Field lookup: `value[key]` on an object, nothing on any other value. */
  function Get(v: Json, key: string): Option<Json> {
    if v.JObj? then Lookup(v.fields, key) else None
  }

  function Lookup(fs: seq<Field>, key: string): Option<Json> {
    if fs == [] then None
    else if fs[0].key == key then Some(fs[0].val)
    else Lookup(fs[1..], key)
  }

  lemma {:induction false} LookupAt(fs: seq<Field>, j: nat)
    requires DistinctKeys(fs) && j < |fs|
    ensures Lookup(fs, fs[j].key) == Some(fs[j].val)
  {
    if j > 0 {
      assert fs[0].key != fs[j].key;
      LookupAt(fs[1..], j - 1);
    }
  }

  lemma {:induction false} LookupIndex(fs: seq<Field>, key: string) returns (j: nat)
    requires Lookup(fs, key).Some?
    ensures j < |fs| && fs[j] == Field(key, Lookup(fs, key).value)
  {
    if fs[0].key == key {
      j := 0;
    } else {
      j := LookupIndex(fs[1..], key);
      j := j + 1;
    }
  }

  function AsString(v: Json): Option<string> {
    if v.JStr? then Some(v.s) else None
  }

  /** `value[key] = x`: replace the field of an object, or add it at the end; null becomes an object. */
  function SetField(v: Json, key: string, x: Json): Json {
    match v
    case JObj(fields) => JObj(SetIn(fields, key, x))
    case JNull => JObj([Field(key, x)])
    case _ => v
  }

  function SetIn(fs: seq<Field>, key: string, x: Json): seq<Field> {
    if fs == [] then [Field(key, x)]
    else if fs[0].key == key then [Field(key, x)] + fs[1..]
    else [fs[0]] + SetIn(fs[1..], key, x)
  }

  lemma {:induction false} LookupSet(fs: seq<Field>, key: string, x: Json, k: string)
    ensures Lookup(SetIn(fs, key, x), k) == if k == key then Some(x) else Lookup(fs, k)
  {
    if fs != [] && fs[0].key != key {
      LookupSet(fs[1..], key, x, k);
    }
  }

  /** Assigning a field of an object, or of null, sets that field and leaves the others. */
  lemma {:induction false} GetAfterSet(v: Json, key: string, x: Json, k: string)
    requires v.JObj? || v.JNull?
    ensures Get(SetField(v, key, x), k) == if k == key then Some(x) else Get(v, k)
  {
    LookupSet(if v.JObj? then v.fields else [], key, x, k);
  }

  // ----- canonical form -----

  /** Insertion into an ordered map: keys stay sorted, an equal key is replaced. */
  function InsertField(f: Field, fs: seq<Field>): seq<Field> {
    if fs == [] then [f]
    else if f.key == fs[0].key then [f] + fs[1..]
    else if LexLess(f.key, fs[0].key) then [f] + fs
    else [fs[0]] + InsertField(f, fs[1..])
  }

  /** Rebuild every object from an ordered map, at every depth. */
  function Canon(v: Json): Json
    decreases v, 1
  {
    match v
    case JArr(items) => JArr(CanonItems(items))
    case JObj(fields) => JObj(CanonFields(fields))
    case _ => v
  }

  function CanonItems(items: seq<Json>): (r: seq<Json>)
    ensures |r| == |items|
    ensures forall i :: 0 <= i < |items| ==> r[i] == Canon(items[i])
    decreases items, 0
  {
    if items == [] then [] else [Canon(items[0])] + CanonItems(items[1..])
  }

  function CanonFields(fields: seq<Field>): seq<Field>
    decreases fields, 0
  {
    if fields == [] then []
    else InsertField(Field(fields[0].key, Canon(fields[0].val)), CanonFields(fields[1..]))
  }

  ghost predicate SortedFields(fs: seq<Field>) {
    forall i, j :: 0 <= i < j < |fs| ==> LexLess(fs[i].key, fs[j].key)
  }

  /** Equality that ignores the order of object keys, at every depth, and nothing else. */
  ghost predicate Equiv(a: Json, b: Json) {
    if a.JArr? && b.JArr? then
      |a.items| == |b.items| && forall i :: 0 <= i < |a.items| ==> Equiv(a.items[i], b.items[i])
    else if a.JObj? && b.JObj? then
      && |a.fields| == |b.fields|
      && forall i :: 0 <= i < |a.fields| ==>
           var other := Lookup(b.fields, a.fields[i].key);
           other.Some? && Equiv(a.fields[i].val, other.value)
    else a == b
  }

  // ----- what the canonical form is -----

  /** `f` is the canonical image of a field of `fs`. */
  ghost predicate ImageOf(f: Field, fs: seq<Field>) {
    exists i :: 0 <= i < |fs| && f == Field(fs[i].key, Canon(fs[i].val))
  }

  lemma {:induction false} InsertMembers(f: Field, fs: seq<Field>)
    requires SortedFields(fs)
    requires forall i :: 0 <= i < |fs| ==> fs[i].key != f.key
    ensures SortedFields(InsertField(f, fs))
    ensures forall g :: g in InsertField(f, fs) <==> g == f || g in fs
    ensures |InsertField(f, fs)| == |fs| + 1
  {
    if fs != [] {
      LexTotal(f.key, fs[0].key);
      var r := InsertField(f, fs);
      if LexLess(f.key, fs[0].key) {
        forall i, j | 0 <= i < j < |r| ensures LexLess(r[i].key, r[j].key) {
          if i == 0 && j > 1 {
            LexTransitive(f.key, fs[0].key, fs[j - 1].key);
          }
        }
      } else {
        var tail := InsertField(f, fs[1..]);
        InsertMembers(f, fs[1..]);
        forall i, j | 0 <= i < j < |r| ensures LexLess(r[i].key, r[j].key) {
          if i == 0 {
            assert tail[j - 1] == f || tail[j - 1] in fs[1..];
          }
        }
        forall g ensures g in r <==> g == f || g in fs {
          assert fs == [fs[0]] + fs[1..];
        }
      }
    }
  }

  lemma {:induction false} CanonFieldsShape(fs: seq<Field>)
    requires DistinctKeys(fs)
    ensures SortedFields(CanonFields(fs)) && |CanonFields(fs)| == |fs|
    ensures forall f :: f in CanonFields(fs) <==> ImageOf(f, fs)
  {
    if fs != [] {
      CanonFieldsShape(fs[1..]);
      var head := Field(fs[0].key, Canon(fs[0].val));
      var tail := CanonFields(fs[1..]);
      forall i | 0 <= i < |tail| ensures tail[i].key != head.key {
        assert ImageOf(tail[i], fs[1..]);
        var k :| 0 <= k < |fs[1..]| && tail[i] == Field(fs[1..][k].key, Canon(fs[1..][k].val));
        assert fs[0].key != fs[k + 1].key;
      }
      InsertMembers(head, tail);
      forall f ensures f in CanonFields(fs) <==> ImageOf(f, fs) {
        ImageOfCons(f, fs);
      }
    }
  }

  lemma {:induction false} ImageOfCons(f: Field, fs: seq<Field>)
    requires fs != []
    ensures ImageOf(f, fs) <==> f == Field(fs[0].key, Canon(fs[0].val)) || ImageOf(f, fs[1..])
  {
    if ImageOf(f, fs) {
      var i :| 0 <= i < |fs| && f == Field(fs[i].key, Canon(fs[i].val));
      if i > 0 {
        assert fs[1..][i - 1] == fs[i];
      }
    }
    if ImageOf(f, fs[1..]) {
      var i :| 0 <= i < |fs[1..]| && f == Field(fs[1..][i].key, Canon(fs[1..][i].val));
      assert fs[i + 1] == fs[1..][i];
    }
  }

  ghost function KeysOf(fs: seq<Field>): (r: seq<string>)
    ensures |r| == |fs| && forall i :: 0 <= i < |fs| ==> r[i] == fs[i].key
  {
    seq(|fs|, i requires 0 <= i < |fs| => fs[i].key)
  }

  /** A key-sorted field list is determined by the fields in it. */
  lemma {:induction false} SortedFieldsUnique(a: seq<Field>, b: seq<Field>)
    requires SortedFields(a) && SortedFields(b)
    requires forall f :: f in a <==> f in b
    ensures a == b
  {
    var ka, kb := KeysOf(a), KeysOf(b);
    assert forall x :: x in ka <==> x in kb by {
      SameKeys(a, b);
      SameKeys(b, a);
    }
    SortedUnique(ka, kb);
    forall i | 0 <= i < |a| ensures a[i] == b[i] {
      assert a[i] in b;
      var j :| 0 <= j < |b| && b[j] == a[i];
      assert ka[i] == kb[i];
      LexIrreflexive(a[i].key);
    }
  }

  lemma {:induction false} SameKeys(a: seq<Field>, b: seq<Field>)
    requires forall f :: f in a ==> f in b
    ensures forall x :: x in KeysOf(a) ==> x in KeysOf(b)
  {
    forall x | x in KeysOf(a) ensures x in KeysOf(b) {
      var i :| 0 <= i < |a| && KeysOf(a)[i] == x;
      assert a[i] in b;
      var j :| 0 <= j < |b| && b[j] == a[i];
      assert KeysOf(b)[j] == x;
    }
  }

  // ----- main result -----

  /** Canonical forms agree exactly on values that are equal up to object key order. */
  lemma {:induction false} CanonDecidesEquiv(a: Json, b: Json)
    requires WellFormed(a) && WellFormed(b)
    ensures Canon(a) == Canon(b) <==> Equiv(a, b)
    decreases a
  {
    if a.JArr? && b.JArr? {
      if |a.items| == |b.items| {
        forall i | 0 <= i < |a.items|
          ensures Canon(a.items[i]) == Canon(b.items[i]) <==> Equiv(a.items[i], b.items[i])
        {
          CanonDecidesEquiv(a.items[i], b.items[i]);
        }
        var ca, cb := CanonItems(a.items), CanonItems(b.items);
        if ca == cb {
          assert forall i :: 0 <= i < |a.items| ==> Canon(a.items[i]) == ca[i] && Canon(b.items[i]) == cb[i];
        }
      }
    } else if a.JObj? && b.JObj? {
      CanonFieldsShape(a.fields);
      CanonFieldsShape(b.fields);
      if Canon(a) == Canon(b) {
        CanonEqualFieldsEquiv(a, b);
      }
      if Equiv(a, b) {
        EquivFieldsCanonEqual(a, b);
      }
    }
  }

  lemma {:induction false} CanonEqualFieldsEquiv(a: Json, b: Json)
    requires WellFormed(a) && WellFormed(b) && a.JObj? && b.JObj?
    requires CanonFields(a.fields) == CanonFields(b.fields)
    ensures Equiv(a, b)
    decreases a, 0
  {
    var fa, fb := a.fields, b.fields;
    CanonFieldsShape(fa);
    CanonFieldsShape(fb);
    forall i | 0 <= i < |fa|
      ensures Lookup(fb, fa[i].key).Some? && Equiv(fa[i].val, Lookup(fb, fa[i].key).value)
    {
      var f := Field(fa[i].key, Canon(fa[i].val));
      assert ImageOf(f, fa);
      assert ImageOf(f, fb);
      var j :| 0 <= j < |fb| && f == Field(fb[j].key, Canon(fb[j].val));
      LookupAt(fb, j);
      CanonDecidesEquiv(fa[i].val, fb[j].val);
    }
  }

  lemma {:induction false} EquivFieldsCanonEqual(a: Json, b: Json)
    requires WellFormed(a) && WellFormed(b) && a.JObj? && b.JObj? && Equiv(a, b)
    ensures CanonFields(a.fields) == CanonFields(b.fields)
    decreases a, 0
  {
    var fa, fb := a.fields, b.fields;
    var ca, cb := CanonFields(fa), CanonFields(fb);
    CanonFieldsShape(fa);
    CanonFieldsShape(fb);
    forall f | f in ca ensures f in cb {
      assert ImageOf(f, fa);
      var i :| 0 <= i < |fa| && f == Field(fa[i].key, Canon(fa[i].val));
      var j := LookupIndex(fb, fa[i].key);
      CanonDecidesEquiv(fa[i].val, fb[j].val);
      assert f == Field(fb[j].key, Canon(fb[j].val));
      assert ImageOf(f, fb);
    }
    SubsetOfSameLength(ca, cb);
    SortedFieldsUnique(ca, cb);
  }

  /** Distinct elements of one list, all found in another of the same length, exhaust it. */
  lemma {:induction false} SubsetOfSameLength(a: seq<Field>, b: seq<Field>)
    requires SortedFields(a) && SortedFields(b) && |a| == |b|
    requires forall f :: f in a ==> f in b
    ensures forall f :: f in a <==> f in b
  {
    SortedIsDistinct(a);
    SortedIsDistinct(b);
    CountDistinct(b);
    DistinctExhausts(a, Elements(b));
  }

  lemma {:induction false} SortedIsDistinct(a: seq<Field>)
    requires SortedFields(a)
    ensures Distinct(a)
  {
    forall i, j | 0 <= i < j < |a| ensures a[i] != a[j] {
      LexIrreflexive(a[i].key);
    }
  }

  /** Canonicalisation changes nothing but key order, and doing it twice changes nothing more. */
  lemma {:induction false} CanonIdempotent(v: Json)
    requires WellFormed(v)
    ensures WellFormed(Canon(v)) && Equiv(Canon(v), v)
    ensures Canon(Canon(v)) == Canon(v)
  {
    CanonPreserves(v);
    CanonDecidesEquiv(Canon(v), v);
  }

  lemma {:induction false} CanonPreserves(v: Json)
    requires WellFormed(v)
    ensures WellFormed(Canon(v)) && Equiv(Canon(v), v)
  {
    match v
    case JArr(items) =>
      forall i | 0 <= i < |items| ensures WellFormed(Canon(items[i])) && Equiv(Canon(items[i]), items[i]) {
        CanonPreserves(items[i]);
      }
    case JObj(fields) =>
      var c := CanonFields(fields);
      CanonFieldsShape(fields);
      forall i | 0 <= i < |fields|
        ensures WellFormed(Canon(fields[i].val)) && Equiv(Canon(fields[i].val), fields[i].val)
      {
        CanonPreserves(fields[i].val);
      }
      forall i | 0 <= i < |c|
        ensures WellFormed(c[i].val)
        ensures Lookup(fields, c[i].key).Some? && Equiv(c[i].val, Lookup(fields, c[i].key).value)
      {
        assert ImageOf(c[i], fields);
        var j :| 0 <= j < |fields| && c[i] == Field(fields[j].key, Canon(fields[j].val));
        LookupAt(fields, j);
      }
      forall i, j | 0 <= i < j < |c| ensures c[i].key != c[j].key {
        LexIrreflexive(c[i].key);
      }
    case _ =>
  }

  // ----- the hash input -----

  /** `compute_desired_hash`: a digest of the printed canonical form. */
  function DesiredHash(digest: Json -> string, v: Json): string {
    digest(Canon(v))
  }

  /** A map serialised in the order its iterator happens to visit the keys. */
  function MapJson(m: map<string, string>, order: seq<string>): (r: Json)
    requires forall i :: 0 <= i < |order| ==> order[i] in m
  {
    JObj(seq(|order|, i requires 0 <= i < |order| => Field(order[i], JStr(m[order[i]]))))
  }

  /**
   The hash does not see the iteration order of a map, and, for a digest without
   collisions, sees everything else: equal hashes mean equal maps.
   */
  lemma {:induction false} HashSeesContentsOnly(digest: Json -> string, m: map<string, string>, n: map<string, string>,
                                                p: seq<string>, q: seq<string>)
    requires Lists(p, m.Keys) && Lists(q, n.Keys)
    ensures m == n ==> DesiredHash(digest, MapJson(m, p)) == DesiredHash(digest, MapJson(n, q))
    ensures (forall x, y :: digest(x) == digest(y) ==> x == y) ==>
              (DesiredHash(digest, MapJson(m, p)) == DesiredHash(digest, MapJson(n, q)) ==> m == n)
  {
    var a, b := MapJson(m, p), MapJson(n, q);
    CanonDecidesEquiv(a, b);
    MapJsonEquiv(m, n, p, q);
  }

  lemma {:induction false} MapJsonEquiv(m: map<string, string>, n: map<string, string>, p: seq<string>, q: seq<string>)
    requires Lists(p, m.Keys) && Lists(q, n.Keys)
    ensures Equiv(MapJson(m, p), MapJson(n, q)) <==> m == n
  {
    if m == n {
      SameMapEquiv(m, p, q);
    }
    if Equiv(MapJson(m, p), MapJson(n, q)) {
      MapJsonWellFormed(m, p);
      MapJsonWellFormed(n, q);
      CanonDecidesEquiv(MapJson(m, p), MapJson(n, q));
      CanonDecidesEquiv(MapJson(n, q), MapJson(m, p));
      EquivMaps(m, n, p, q);
      EquivMaps(n, m, q, p);
      assert m.Keys == n.Keys;
    }
  }

  lemma {:induction false} MapJsonWellFormed(m: map<string, string>, p: seq<string>)
    requires Lists(p, m.Keys)
    ensures WellFormed(MapJson(m, p))
  {
  }

  lemma {:induction false} SameMapEquiv(m: map<string, string>, p: seq<string>, q: seq<string>)
    requires Lists(p, m.Keys) && Lists(q, m.Keys)
    ensures Equiv(MapJson(m, p), MapJson(m, q))
  {
    var a, b := MapJson(m, p), MapJson(m, q);
    ListsSameLength(p, q, m.Keys);
    forall i | 0 <= i < |a.fields|
      ensures Lookup(b.fields, a.fields[i].key).Some? && Equiv(a.fields[i].val, Lookup(b.fields, a.fields[i].key).value)
    {
      assert p[i] in q;
      var j :| 0 <= j < |q| && q[j] == p[i];
      LookupAt(b.fields, j);
    }
  }

  ghost predicate Lists(order: seq<string>, keys: set<string>) {
    && (forall i, j :: 0 <= i < j < |order| ==> order[i] != order[j])
    && (forall k :: k in order <==> k in keys)
  }

  lemma {:induction false} SortedLists(s: set<string>)
    ensures Lists(SortedKeys(s), s)
  {
    var q := SortedKeys(s);
    forall i, j | 0 <= i < j < |q| ensures q[i] != q[j] {
      LexIrreflexive(q[i]);
    }
  }

  lemma {:induction false} ListsSameLength(p: seq<string>, q: seq<string>, keys: set<string>)
    requires Lists(p, keys) && Lists(q, keys)
    ensures |p| == |q| == |keys|
  {
    ListsCount(p, keys);
    ListsCount(q, keys);
  }

  lemma {:induction false} ListsCount(p: seq<string>, keys: set<string>)
    requires Lists(p, keys)
    ensures |p| == |keys|
  {
    if p != [] {
      assert p[0] in keys;
      assert p == [p[0]] + p[1..];
      ListsCount(p[1..], keys - {p[0]});
    } else {
      assert keys == {} by {
        assert forall k :: k in keys ==> k in p;
      }
    }
  }

  lemma {:induction false} EquivMaps(m: map<string, string>, n: map<string, string>, p: seq<string>, q: seq<string>)
    requires Lists(p, m.Keys) && Lists(q, n.Keys)
    requires Equiv(MapJson(m, p), MapJson(n, q))
    ensures forall k :: k in m ==> k in n && m[k] == n[k]
  {
    var a, b := MapJson(m, p), MapJson(n, q);
    forall k | k in m ensures k in n && m[k] == n[k] {
      assert k in p;
      var i :| 0 <= i < |p| && p[i] == k;
      assert a.fields[i].key == k;
      assert Lookup(b.fields, a.fields[i].key).Some?;
      var j := LookupIndex(b.fields, k);
      assert a.fields[i] == Field(k, JStr(m[k])) && b.fields[j] == Field(k, JStr(n[k]));
      assert q[j] in q;
    }
  }
}

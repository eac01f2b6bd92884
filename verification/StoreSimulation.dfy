/**
 The persistent store refines the in-memory one: run side by side, they stay related and give
 the same answers, over any sequence of calls.
 */
module StoreSimulation {
  import opened Prelude
  import opened Ordering
  import opened Json
  import opened Domain
  import opened State
  import opened StoreModel
  import opened RedbModel

  // ----- the relation -----

  /** The table holds the same keys, and its bytes parse to the values of the map. */
  ghost predicate Holds<T>(dec: Bytes -> Option<T>, table: map<string, Bytes>, m: map<string, T>) {
    table.Keys == m.Keys && forall k :: k in m ==> dec(table[k]) == Some(m[k])
  }

  /** Events are numbered 1, 2, ..., n in the order they were appended, and n is the counter. */
  ghost predicate HoldsEvents(f: Format, t: Tables, events: seq<AuditEvent>) {
    && EventSeq(t) == |events|
    && (forall k :: k in t.events <==> 1 <= k <= |events|)
    && (forall k :: 1 <= k <= |events| ==> f.event.dec(t.events[k]) == Some(events[k - 1]))
  }

  ghost predicate KeyedById(enclaves: map<EnclaveId, EnclaveState>) {
    forall id :: id in enclaves ==> enclaves[id].desired.id == id
  }

  ghost predicate Related(f: Format, m: MemView, t: Tables) {
    && Holds(f.enclave.dec, t.enclaves, m.enclaves) && KeyedById(m.enclaves)
    && HoldsEvents(f, t, m.events)
    && t.tfState == m.tfState
    && Holds(f.lock.dec, t.tfLocks, m.tfLocks)
    && Holds(f.run.dec, t.runs, m.runs)
  }

  /** Equal answers, up to the order of a listing of enclaves. */
  ghost predicate Agree(a: Answer, b: Answer) {
    if a.Enclaves? && b.Enclaves? then multiset(a.enclaves) == multiset(b.enclaves) else a == b
  }

  // ----- iteration reads the map back -----

  lemma {:induction false} DecodeAllReads<K, T>(dec: Bytes -> Option<T>, table: map<K, Bytes>, keys: seq<K>,
                                                vals: seq<T>)
    requires |vals| == |keys|
    requires forall i :: 0 <= i < |keys| ==> keys[i] in table && dec(table[keys[i]]) == Some(vals[i])
    ensures DecodeAll(dec, table, keys) == Some(vals)
    decreases |keys|
  {
    if keys != [] {
      var n := |keys| - 1;
      DecodeAllReads(dec, table, keys[..n], vals[..n]);
      assert vals == vals[..n] + [vals[n]];
    } else {
      assert vals == [];
    }
  }

  lemma {:induction false} AscendingIsCount(s: set<nat>, n: nat)
    requires forall k :: k in s <==> 1 <= k <= n
    ensures AscendingKeys(s) == seq(n, i requires 0 <= i < n => i + 1)
  {
    AscendingFrom(s, 1, n);
  }

  lemma {:induction false} AscendingFrom(s: set<nat>, from: nat, n: nat)
    requires from <= n + 1 && forall k :: k in s <==> from <= k <= n
    ensures |AscendingKeys(s)| == n + 1 - from
    ensures forall i :: 0 <= i < n + 1 - from ==> AscendingKeys(s)[i] == from + i
    decreases n + 1 - from
  {
    if from <= n {
      assert from in s;
      var k := LeastNat(s);
      assert k == from;
      AscendingFrom(s - {from}, from + 1, n);
    } else {
      assert s == {};
    }
  }

  /** Two listings of the same keys hold the same values equally often. */
  lemma {:induction false} ListingsAgree<T>(m: map<string, T>, keys: set<string>, p: seq<string>, q: seq<string>)
    requires keys <= m.Keys && Lists(p, keys) && Lists(q, keys)
    ensures (forall i :: 0 <= i < |p| ==> p[i] in m) && (forall i :: 0 <= i < |q| ==> q[i] in m)
    ensures multiset(ValuesOf(m, p)) == multiset(ValuesOf(m, q))
    decreases |p|
  {
    ListedInMap(m, keys, p);
    ListedInMap(m, keys, q);
    ListsSameLength(p, q, keys);
    if p != [] {
      var k := p[0];
      assert k in q by {
        assert k in p;
      }
      var j :| 0 <= j < |q| && q[j] == k;
      ListsTail(p, keys);
      ListsWithout(q, j, keys);
      ListingsAgree(m, keys - {k}, p[1..], q[..j] + q[j + 1..]);
      assert ValuesOf(m, p) == [m[k]] + ValuesOf(m, p[1..]);
      ValuesWithout(m, q, j, q[..j] + q[j + 1..]);
    } else {
      assert p == q;
    }
  }

  lemma {:induction false} ListedInMap<T>(m: map<string, T>, keys: set<string>, p: seq<string>)
    requires keys <= m.Keys && Lists(p, keys)
    ensures forall i :: 0 <= i < |p| ==> p[i] in m
  {
    forall i | 0 <= i < |p| ensures p[i] in m {
      assert p[i] in p;
    }
  }

  lemma {:induction false} ValuesWithout<T>(m: map<string, T>, q: seq<string>, j: nat, r: seq<string>)
    requires j < |q| && r == q[..j] + q[j + 1..] && forall i :: 0 <= i < |q| ==> q[i] in m
    ensures forall i :: 0 <= i < |r| ==> r[i] in m
    ensures multiset(ValuesOf(m, q)) == multiset([m[q[j]]]) + multiset(ValuesOf(m, r))
  {
    var v := ValuesOf(m, q);
    assert ValuesOf(m, r) == v[..j] + v[j + 1..];
    assert v == v[..j] + [v[j]] + v[j + 1..];
  }

  lemma {:induction false} ListsTail(p: seq<string>, keys: set<string>)
    requires Lists(p, keys) && p != []
    ensures Lists(p[1..], keys - {p[0]})
  {
    assert p == [p[0]] + p[1..];
    assert p[0] in p;
  }

  lemma {:induction false} ListsWithout(q: seq<string>, j: nat, keys: set<string>)
    requires Lists(q, keys) && j < |q|
    ensures Lists(q[..j] + q[j + 1..], keys - {q[j]})
  {
    var r := q[..j] + q[j + 1..];
    forall a, b | 0 <= a < b < |r| ensures r[a] != r[b] {
      var x, y := if a < j then a else a + 1, if b < j then b else b + 1;
      assert q[x] != q[y];
    }
    forall k ensures k in r <==> k in keys - {q[j]} {
      if k in r {
        var a :| 0 <= a < |r| && r[a] == k;
        var x := if a < j then a else a + 1;
        assert q[x] == k && q[x] in q;
        assert x < j ==> q[x] != q[j];
        assert j < x ==> q[j] != q[x];
      }
      if k in keys && k != q[j] {
        assert k in q;
        var x :| 0 <= x < |q| && q[x] == k;
        assert r[if x < j then x else x - 1] == k;
      }
    }
  }

  // ----- parts of the relation -----

  lemma {:induction false} HoldsUpdate<T>(dec: Bytes -> Option<T>, table: map<string, Bytes>, m: map<string, T>,
                                          k: string, bytes: Bytes, v: T)
    requires Holds(dec, table, m) && dec(bytes) == Some(v)
    ensures Holds(dec, table[k := bytes], m[k := v])
  {
  }

  lemma {:induction false} HoldsRemove<T>(dec: Bytes -> Option<T>, table: map<string, Bytes>, m: map<string, T>,
                                          k: string)
    requires Holds(dec, table, m)
    ensures Holds(dec, table - {k}, m - {k})
  {
  }

  lemma {:induction false} RelatedParts(f: Format, m: MemView, t: Tables)
    requires Related(f, m, t)
    ensures Holds(f.enclave.dec, t.enclaves, m.enclaves) && KeyedById(m.enclaves)
    ensures Holds(f.lock.dec, t.tfLocks, m.tfLocks) && Holds(f.run.dec, t.runs, m.runs) && t.tfState == m.tfState
  {
  }

  lemma {:induction false} RelatedEnclaves(f: Format, m: MemView, t: Tables, enclaves: map<EnclaveId, EnclaveState>,
                                           table: map<string, Bytes>)
    requires Related(f, m, t) && Holds(f.enclave.dec, table, enclaves) && KeyedById(enclaves)
    ensures Related(f, m.(enclaves := enclaves), t.(enclaves := table))
  {
    hide Holds, KeyedById;
  }

  lemma {:induction false} RelatedTerraform(f: Format, m: MemView, t: Tables, state: map<string, Bytes>,
                                            locks: map<string, Json>, table: map<string, Bytes>)
    requires Related(f, m, t) && Holds(f.lock.dec, table, locks)
    ensures Related(f, m.(tfState := state, tfLocks := locks), t.(tfState := state, tfLocks := table))
  {
    hide Holds, KeyedById;
  }

  lemma {:induction false} RelatedRuns(f: Format, m: MemView, t: Tables, runs: map<string, IacRun>,
                                       table: map<string, Bytes>, index: map<string, string>)
    requires Related(f, m, t) && Holds(f.run.dec, table, runs)
    ensures Related(f, m.(runs := runs), t.(runs := table, runsByPart := index))
  {
    hide Holds, KeyedById;
  }

  // ----- each call -----

  lemma {:induction false} EnclaveCallsAgree(order: set<string> -> seq<string>, f: Format, m: MemView, t: Tables,
                                             op: Op)
    requires Visits(order) && Faithful(f) && Related(f, m, t)
    requires op.GetEnclave? || op.UpsertEnclave? || op.DeleteEnclave? || op.UpsertPartition? || op.DeletePartition?
    ensures Related(f, MemStep(order, m, op).0, RedbStep(f, t, op).0)
    ensures MemStep(order, m, op).1 == RedbStep(f, t, op).1
  {
    hide Related, KeyedById, WriteEnclave;
    match op
    case GetEnclave(id) => StoredAgrees(f, m, t, id);
    case UpsertEnclave(s) => WriteAgrees(f, m, t, s);
    case DeleteEnclave(id) => DeleteAgrees(f, m, t, id);
    case UpsertPartition(id, part) =>
      StoredAgrees(f, m, t, id);
      if id in m.enclaves {
        var es := m.enclaves[id];
        WriteAgrees(f, m, t, es.(partitions := es.partitions[part.desired.id := part]));
      }
    case DeletePartition(id, pid) =>
      StoredAgrees(f, m, t, id);
      if id in m.enclaves {
        var es := m.enclaves[id];
        WriteAgrees(f, m, t, es.(partitions := es.partitions - {pid}));
      }
  }

  lemma {:induction false} StoredAgrees(f: Format, m: MemView, t: Tables, id: EnclaveId)
    requires Related(f, m, t)
    ensures StoredEnclave(f, t, id) == OneEnclave(if id in m.enclaves then Some(m.enclaves[id]) else None)
    ensures id in m.enclaves ==> m.enclaves[id].desired.id == id
  {
    hide Related;
    RelatedParts(f, m, t);
  }

  lemma {:induction false} WriteAgrees(f: Format, m: MemView, t: Tables, es: EnclaveState)
    requires Faithful(f) && Related(f, m, t)
    ensures Related(f, m.(enclaves := m.enclaves[es.desired.id := es]), WriteEnclave(f, t, es))
  {
    hide Related, Holds;
    RelatedParts(f, m, t);
    assert f.enclave.dec(f.enclave.enc(es)) == Some(es);
    HoldsUpdate(f.enclave.dec, t.enclaves, m.enclaves, es.desired.id, f.enclave.enc(es), es);
    RelatedEnclaves(f, m, t, m.enclaves[es.desired.id := es], t.enclaves[es.desired.id := f.enclave.enc(es)]);
  }

  lemma {:induction false} DeleteAgrees(f: Format, m: MemView, t: Tables, id: EnclaveId)
    requires Related(f, m, t)
    ensures Related(f, m.(enclaves := m.enclaves - {id}), t.(enclaves := t.enclaves - {id}))
  {
    hide Related, Holds;
    RelatedParts(f, m, t);
    HoldsRemove(f.enclave.dec, t.enclaves, m.enclaves, id);
    RelatedEnclaves(f, m, t, m.enclaves - {id}, t.enclaves - {id});
  }

  lemma {:induction false} ListEnclavesAgree(order: set<string> -> seq<string>, f: Format, m: MemView, t: Tables)
    requires Visits(order) && Related(f, m, t)
    ensures Agree(MemStep(order, m, ListEnclaves).1, RedbStep(f, t, ListEnclaves).1)
  {
    var p, q := order(m.enclaves.Keys), SortedKeys(m.enclaves.Keys);
    assert Lists(p, m.enclaves.Keys);
    SortedLists(m.enclaves.Keys);
    ListingsAgree(m.enclaves, m.enclaves.Keys, p, q);
    DecodeAllReads(f.enclave.dec, t.enclaves, q, ValuesOf(m.enclaves, q));
  }

  lemma {:induction false} AppendAgrees(order: set<string> -> seq<string>, f: Format, m: MemView, t: Tables,
                                        ev: AuditEvent)
    requires Visits(order) && Faithful(f) && Related(f, m, t)
    ensures Related(f, MemStep(order, m, AppendEvent(ev)).0, RedbStep(f, t, AppendEvent(ev)).0)
    ensures MemStep(order, m, AppendEvent(ev)).1 == RedbStep(f, t, AppendEvent(ev)).1
  {
    assert f.event.dec(f.event.enc(ev)) == Some(ev);
  }

  lemma {:induction false} ListEventsAgree(order: set<string> -> seq<string>, f: Format, m: MemView, t: Tables,
                                           filter: Option<EnclaveId>, limit: nat)
    requires Visits(order) && Related(f, m, t)
    ensures MemStep(order, m, ListEvents(filter, limit)).1 == RedbStep(f, t, ListEvents(filter, limit)).1
  {
    var keys := AscendingKeys(t.events.Keys);
    AscendingIsCount(t.events.Keys, |m.events|);
    DecodeAllReads(f.event.dec, t.events, keys, m.events);
  }

  lemma {:induction false} TerraformCallsAgree(order: set<string> -> seq<string>, f: Format, m: MemView, t: Tables,
                                               op: Op)
    requires Visits(order) && Faithful(f) && Related(f, m, t)
    requires op.GetTfState? || op.PutTfState? || op.DeleteTfState? || op.LockTfState? || op.UnlockTfState?
    ensures Related(f, MemStep(order, m, op).0, RedbStep(f, t, op).0)
    ensures MemStep(order, m, op).1 == RedbStep(f, t, op).1
  {
    hide Related, Holds;
    RelatedParts(f, m, t);
    match op
    case LockTfState(key, info) => LockAgrees(order, f, m, t, key, info);
    case UnlockTfState(key, lockId) => UnlockAgrees(order, f, m, t, key, lockId);
    case DeleteTfState(key) =>
      HoldsRemove(f.lock.dec, t.tfLocks, m.tfLocks, key);
      RelatedTerraform(f, m, t, m.tfState - {key}, m.tfLocks - {key}, t.tfLocks - {key});
    case PutTfState(key, blob) => RelatedTerraform(f, m, t, m.tfState[key := blob], m.tfLocks, t.tfLocks);
    case GetTfState(_) =>
  }

  lemma {:induction false} LockAgrees(order: set<string> -> seq<string>, f: Format, m: MemView, t: Tables, key: string,
                                      info: Json)
    requires Visits(order) && Faithful(f) && Related(f, m, t)
    ensures Related(f, MemStep(order, m, LockTfState(key, info)).0, RedbStep(f, t, LockTfState(key, info)).0)
    ensures MemStep(order, m, LockTfState(key, info)).1 == RedbStep(f, t, LockTfState(key, info)).1
  {
    hide Related;
    RelatedParts(f, m, t);
    assert f.lock.dec(f.lock.enc(info)) == Some(info);
    if key !in m.tfLocks {
      HoldsUpdate(f.lock.dec, t.tfLocks, m.tfLocks, key, f.lock.enc(info), info);
      RelatedTerraform(f, m, t, m.tfState, m.tfLocks[key := info], t.tfLocks[key := f.lock.enc(info)]);
    }
  }

  lemma {:induction false} UnlockAgrees(order: set<string> -> seq<string>, f: Format, m: MemView, t: Tables,
                                        key: string, lockId: string)
    requires Visits(order) && Faithful(f) && Related(f, m, t)
    ensures Related(f, MemStep(order, m, UnlockTfState(key, lockId)).0, RedbStep(f, t, UnlockTfState(key, lockId)).0)
    ensures MemStep(order, m, UnlockTfState(key, lockId)).1 == RedbStep(f, t, UnlockTfState(key, lockId)).1
  {
    hide Related, Releases;
    RelatedParts(f, m, t);
    if key in m.tfLocks {
      assert f.lock.dec(t.tfLocks[key]) == Some(m.tfLocks[key]);
      HoldsRemove(f.lock.dec, t.tfLocks, m.tfLocks, key);
      RelatedTerraform(f, m, t, m.tfState, m.tfLocks - {key}, t.tfLocks - {key});
    }
  }

  lemma {:induction false} RunCallsAgree(order: set<string> -> seq<string>, f: Format, m: MemView, t: Tables, op: Op)
    requires Visits(order) && Faithful(f) && Related(f, m, t)
    requires op.UpsertRun? || op.GetRun?
    ensures Related(f, MemStep(order, m, op).0, RedbStep(f, t, op).0)
    ensures MemStep(order, m, op).1 == RedbStep(f, t, op).1
  {
    hide Related, IndexKey;
    RelatedParts(f, m, t);
    match op
    case UpsertRun(run) =>
      assert f.run.dec(f.run.enc(run)) == Some(run);
      HoldsUpdate(f.run.dec, t.runs, m.runs, run.id, f.run.enc(run), run);
      RelatedRuns(f, m, t, m.runs[run.id := run], t.runs[run.id := f.run.enc(run)],
                  t.runsByPart[IndexKey(f, run) := run.id]);
    case GetRun(_) =>
  }

  lemma {:induction false} ListingChangesNothing(order: set<string> -> seq<string>, f: Format, m: MemView, t: Tables,
                                                 op: Op)
    requires Visits(order) && (op.ListRuns? || op.ListEnclaves? || op.ListEvents?)
    ensures MemStep(order, m, op).0 == m && RedbStep(f, t, op).0 == t
  {
  }

  /** One call: the stores stay related and, listings of runs apart, answer alike. */
  lemma {:induction false} StepAgrees(order: set<string> -> seq<string>, f: Format, m: MemView, t: Tables, op: Op)
    requires Visits(order) && Faithful(f) && Related(f, m, t)
    ensures Related(f, MemStep(order, m, op).0, RedbStep(f, t, op).0)
    ensures !op.ListRuns? ==> Agree(MemStep(order, m, op).1, RedbStep(f, t, op).1)
  {
    hide MemStep, RedbStep, Related;
    match op
    case ListEnclaves =>
      ListEnclavesAgree(order, f, m, t);
      ListingChangesNothing(order, f, m, t, op);
    case AppendEvent(ev) => AppendAgrees(order, f, m, t, ev);
    case ListEvents(filter, limit) =>
      ListEventsAgree(order, f, m, t, filter, limit);
      ListingChangesNothing(order, f, m, t, op);
    case ListRuns(id, pid) => ListingChangesNothing(order, f, m, t, op);
    case UpsertRun(_) => RunCallsAgree(order, f, m, t, op);
    case GetRun(_) => RunCallsAgree(order, f, m, t, op);
    case GetEnclave(_) => EnclaveCallsAgree(order, f, m, t, op);
    case UpsertEnclave(_) => EnclaveCallsAgree(order, f, m, t, op);
    case DeleteEnclave(_) => EnclaveCallsAgree(order, f, m, t, op);
    case UpsertPartition(_, _) => EnclaveCallsAgree(order, f, m, t, op);
    case DeletePartition(_, _) => EnclaveCallsAgree(order, f, m, t, op);
    case _ => TerraformCallsAgree(order, f, m, t, op);
  }

  // ----- sequences of calls -----

  function MemRun(order: set<string> -> seq<string>, m: MemView, ops: seq<Op>): (MemView, seq<Answer>)
    requires Visits(order)
    decreases |ops|
  {
    if ops == [] then (m, [])
    else
      var (m1, a) := MemStep(order, m, ops[0]);
      var (m2, rest) := MemRun(order, m1, ops[1..]);
      (m2, [a] + rest)
  }

  function RedbRun(f: Format, t: Tables, ops: seq<Op>): (Tables, seq<Answer>)
    decreases |ops|
  {
    if ops == [] then (t, [])
    else
      var (t1, a) := RedbStep(f, t, ops[0]);
      var (t2, rest) := RedbRun(f, t1, ops[1..]);
      (t2, [a] + rest)
  }

  /** From related states, any sequence of calls ends in related states, call by call answered alike. */
  lemma {:induction false} RunsAgree(order: set<string> -> seq<string>, f: Format, m: MemView, t: Tables, ops: seq<Op>)
    requires Visits(order) && Faithful(f) && Related(f, m, t)
    ensures var (m', xs), (t', ys) := MemRun(order, m, ops), RedbRun(f, t, ops);
            && Related(f, m', t') && |xs| == |ys| == |ops|
            && forall i :: 0 <= i < |ops| && !ops[i].ListRuns? ==> Agree(xs[i], ys[i])
    decreases |ops|
  {
    hide MemStep, RedbStep, Related, Agree;
    if ops != [] {
      StepAgrees(order, f, m, t, ops[0]);
      var m1, t1 := MemStep(order, m, ops[0]).0, RedbStep(f, t, ops[0]).0;
      RunsAgree(order, f, m1, t1, ops[1..]);
      var xs, ys := MemRun(order, m, ops).1, RedbRun(f, t, ops).1;
      forall i | 0 <= i < |ops| && !ops[i].ListRuns? ensures Agree(xs[i], ys[i]) {
        if i > 0 {
          assert xs[i] == MemRun(order, m1, ops[1..]).1[i - 1] && ys[i] == RedbRun(f, t1, ops[1..]).1[i - 1];
          assert ops[i] == ops[1..][i - 1];
        }
      }
    }
  }

  /** Freshly opened stores are related, so from the start the two cannot be told apart. */
  lemma {:induction false} RedbRefinesMemory(order: set<string> -> seq<string>, f: Format, ops: seq<Op>)
    requires Visits(order) && Faithful(f)
    ensures var (m, xs), (t, ys) := MemRun(order, EMPTY_VIEW, ops), RedbRun(f, EMPTY_TABLES, ops);
            && Related(f, m, t) && |xs| == |ys| == |ops|
            && forall i :: 0 <= i < |ops| && !ops[i].ListRuns? ==> Agree(xs[i], ys[i])
  {
    RunsAgree(order, f, EMPTY_VIEW, EMPTY_TABLES, ops);
  }
}

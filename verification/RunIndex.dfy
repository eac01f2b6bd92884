/**
 The run log of one partition, read through the text index of the persistent store
 (crates/nclav-store/src/redb_store.rs, `list_iac_runs`), against the plain filter and sort
 of the in-memory store.
 */
module RunIndex {
  import opened Prelude
  import opened Ordering
  import opened Json
  import opened Domain
  import opened State
  import opened StoreModel
  import opened RedbModel
  import opened StoreSimulation

  predicate SlashFree(s: string) {
    '/' !in s
  }

  predicate Matches(run: IacRun, id: EnclaveId, pid: PartitionId) {
    run.enclaveId == id && run.partitionId == pid
  }

  /** `x` comes before `y`, and not merely because it is shorter. */
  ghost predicate Below(x: string, y: string) {
    exists k: nat :: DiffersAt(x, y, k) && x[k] < y[k]
  }

  ghost predicate DiffersAt(x: string, y: string, k: nat) {
    k < |x| && k < |y| && x[..k] == y[..k] && x[k] != y[k]
  }

  /** The stored start times of a partition are printed in an order that text comparison respects. */
  ghost predicate TimeOrdered(f: Format, m: MemView, id: EnclaveId, pid: PartitionId) {
    forall a, b ::
      && a in m.runs.Values && Matches(a, id, pid)
      && b in m.runs.Values && Matches(b, id, pid)
      && a.startedAt < b.startedAt ==>
        Below(f.timeText(a.startedAt), f.timeText(b.startedAt))
  }

  ghost predicate PlainIds(m: MemView) {
    forall k :: k in m.runs ==> PlainRun(m.runs[k])
  }

  ghost predicate PlainRun(run: IacRun) {
    SlashFree(run.enclaveId) && SlashFree(run.partitionId) && SlashFree(run.id)
  }

  /** Runs are stored under their own id, and the index has one entry per run, under its own key. */
  ghost predicate IndexExact(f: Format, m: MemView, t: Tables) {
    Indexes(f, m.runs, t.runsByPart)
  }

  ghost predicate Indexes(f: Format, runs: map<string, IacRun>, index: map<string, string>) {
    && (forall id :: id in runs ==> runs[id].id == id && IndexKey(f, runs[id]) in index)
    && (forall k :: k in index ==> index[k] in runs && IndexKey(f, runs[index[k]]) == k)
  }

  // ----- keys -----

  /** A text up to its first '/' is determined, and so is what follows. */
  lemma {:induction false} SlashSplit(a: string, x: string, b: string, y: string)
    requires SlashFree(a) && SlashFree(b) && a + ("/" + x) <= b + ("/" + y)
    ensures a == b && x <= y
  {
    var s, u := a + ("/" + x), b + ("/" + y);
    forall i | 0 <= i < |a| ensures s[i] != '/' {
      assert a[i] in a;
    }
    forall i | 0 <= i < |b| ensures u[i] != '/' {
      assert b[i] in b;
    }
    assert u[|a|] == s[|a|] == '/' && u[|b|] == '/';
    assert |a| == |b|;
    assert a == s[..|a|] == u[..|a|] == b;
    assert x == s[|a| + 1..] && y == u[|a| + 1..];
  }

  /** The same from the back: what follows the last '/' is determined. */
  lemma {:induction false} LastSlash(x: string, a: string, y: string, b: string)
    requires SlashFree(a) && SlashFree(b) && x + "/" + a == y + "/" + b
    ensures a == b
  {
    var s, t := x + "/" + a, y + "/" + b;
    forall i | |x| < i < |s| ensures s[i] != '/' {
      assert a[i - |x| - 1] in a;
    }
    forall i | |y| < i < |t| ensures t[i] != '/' {
      assert b[i - |y| - 1] in b;
    }
    assert s[|x|] == '/' && t[|y|] == '/';
    assert |x| == |y|;
    assert a == s[|x| + 1..] && b == t[|y| + 1..];
  }

  lemma {:induction false} KeyNamesRun(f: Format, a: IacRun, b: IacRun)
    requires SlashFree(a.id) && SlashFree(b.id) && IndexKey(f, a) == IndexKey(f, b)
    ensures a.id == b.id
  {
    var x := PartPrefix(a.enclaveId, a.partitionId) + f.timeText(a.startedAt);
    var y := PartPrefix(b.enclaveId, b.partitionId) + f.timeText(b.startedAt);
    assert IndexKey(f, a) == x + "/" + a.id;
    assert IndexKey(f, b) == y + "/" + b.id;
    LastSlash(x, a.id, y, b.id);
  }

  /** For ids without '/', a key starts with a partition's prefix exactly when the run is that partition's. */
  lemma {:induction false} PrefixIffMatches(f: Format, run: IacRun, id: EnclaveId, pid: PartitionId)
    requires SlashFree(run.enclaveId) && SlashFree(run.partitionId) && SlashFree(id) && SlashFree(pid)
    ensures PartPrefix(id, pid) <= IndexKey(f, run) <==> Matches(run, id, pid)
  {
    var rest := f.timeText(run.startedAt) + "/" + run.id;
    var inner := run.partitionId + ("/" + rest);
    assert IndexKey(f, run) == run.enclaveId + ("/" + inner);
    assert pid + "/" == pid + ("/" + "");
    if PartPrefix(id, pid) <= IndexKey(f, run) {
      assert PartPrefix(id, pid) == id + ("/" + (pid + "/"));
      SlashSplit(id, pid + "/", run.enclaveId, inner);
      SlashSplit(pid, "", run.partitionId, rest);
    }
  }

  lemma {:induction false} LaterRunLaterKey(f: Format, a: IacRun, b: IacRun)
    requires a.enclaveId == b.enclaveId && a.partitionId == b.partitionId
    requires Below(f.timeText(a.startedAt), f.timeText(b.startedAt))
    ensures LexLess(IndexKey(f, a), IndexKey(f, b))
  {
    var p, x, y := PartPrefix(a.enclaveId, a.partitionId), f.timeText(a.startedAt), f.timeText(b.startedAt);
    var k: nat :| DiffersAt(x, y, k) && x[k] < y[k];
    LexFirstDifference(x, y, k, "/" + a.id, "/" + b.id);
    assert IndexKey(f, a) == p + (x + ("/" + a.id)) && IndexKey(f, b) == p + (y + ("/" + b.id));
    LexPrefix(p, x + ("/" + a.id), y + ("/" + b.id));
  }

  // ----- keeping the index exact -----

  lemma {:induction false} StableKeyKeepsIndex(f: Format, runs: map<string, IacRun>, index: map<string, string>,
                                               run: IacRun)
    requires Indexes(f, runs, index) && PlainRun(run) && forall k :: k in runs ==> PlainRun(runs[k])
    requires run.id in runs ==> IndexKey(f, runs[run.id]) == IndexKey(f, run)
    ensures Indexes(f, runs[run.id := run], index[IndexKey(f, run) := run.id])
  {
    forall id | id in runs && id != run.id ensures IndexKey(f, runs[id]) != IndexKey(f, run) {
      if IndexKey(f, runs[id]) == IndexKey(f, run) {
        KeyNamesRun(f, runs[id], run);
      }
    }
  }

  lemma {:induction false} ChangedKeyBreaksIndex(f: Format, runs: map<string, IacRun>, index: map<string, string>,
                                                 run: IacRun)
    requires Indexes(f, runs, index) && forall k :: k in runs ==> PlainRun(runs[k])
    requires run.id in runs && IndexKey(f, runs[run.id]) != IndexKey(f, run)
    ensures !Indexes(f, runs[run.id := run], index[IndexKey(f, run) := run.id])
  {
    var stale := IndexKey(f, runs[run.id]);
    KeyNamesRun(f, runs[index[stale]], runs[run.id]);
    assert index[IndexKey(f, run) := run.id][stale] == run.id;
  }

  /** Writing a run keeps the index exact if and only if the run's key does not change. */
  lemma {:induction false} IndexStaysExactIffKeyStable(order: set<string> -> seq<string>, f: Format, m: MemView,
                                                       t: Tables, run: IacRun)
    requires Visits(order) && IndexExact(f, m, t) && PlainIds(m) && PlainRun(run)
    ensures IndexExact(f, MemStep(order, m, UpsertRun(run)).0, RedbStep(f, t, UpsertRun(run)).0) <==>
            (run.id in m.runs ==> IndexKey(f, m.runs[run.id]) == IndexKey(f, run))
  {
    if run.id in m.runs ==> IndexKey(f, m.runs[run.id]) == IndexKey(f, run) {
      StableKeyKeepsIndex(f, m.runs, t.runsByPart, run);
    } else {
      ChangedKeyBreaksIndex(f, m.runs, t.runsByPart, run);
    }
  }

  // ----- the scan -----

  lemma {:induction false} ScanSorted(keys: seq<string>, prefix: string)
    requires StrictlySorted(keys)
    ensures StrictlySorted(ScanKeys(keys, prefix))
    decreases |keys|
  {
    if keys != [] {
      TailElements(keys);
      ScanSorted(keys[1..], prefix);
      var tail, r := ScanKeys(keys[1..], prefix), ScanKeys(keys, prefix);
      forall i, j | 0 <= i < j < |r| ensures LexLess(r[i], r[j]) {
        if r != tail && i == 0 {
          ScanKeysSome(keys[1..], prefix, tail[j - 1]);
          assert tail[j - 1] in tail;
          var k :| 0 <= k < |keys[1..]| && keys[1..][k] == tail[j - 1];
          assert LexLess(keys[0], keys[k + 1]);
        }
      }
    }
  }

  /** A text is not before its own prefix, so the range bound loses nothing. */
  lemma {:induction false} PrefixIsBound(p: string, k: string)
    requires p <= k
    ensures LexLeq(p, k)
  {
    var rest := k[|p|..];
    assert k == p + rest && p == p + "";
    LexPrefix(p, "", rest);
  }

  ghost function RunsAt(m: MemView, index: map<string, string>, keys: seq<string>): (r: seq<IacRun>)
    requires forall i :: 0 <= i < |keys| ==> keys[i] in index && index[keys[i]] in m.runs
    ensures |r| == |keys| && forall i :: 0 <= i < |r| ==> r[i] == m.runs[index[keys[i]]]
  {
    seq(|keys|, i requires 0 <= i < |keys| => m.runs[index[keys[i]]])
  }

  lemma {:induction false} FetchReads(f: Format, m: MemView, table: map<string, Bytes>, ids: seq<string>,
                                      runs: seq<IacRun>)
    requires Holds(f.run.dec, table, m.runs) && |runs| == |ids|
    requires forall i :: 0 <= i < |ids| ==> ids[i] in m.runs && runs[i] == m.runs[ids[i]]
    ensures FetchRuns(f, table, ids) == Some(runs)
    decreases |ids|
  {
    if ids != [] {
      var n := |ids| - 1;
      FetchReads(f, m, table, ids[..n], runs[..n]);
      assert runs == runs[..n] + [runs[n]];
    } else {
      assert runs == [];
    }
  }

  /** The runs of a partition, each once, the latest start first. */
  ghost predicate RunLog(m: MemView, id: EnclaveId, pid: PartitionId, log: seq<IacRun>) {
    && Distinct(log)
    && (forall r :: r in log <==> r in m.runs.Values && Matches(r, id, pid))
    && (forall i, j :: 0 <= i < j < |log| ==> log[i].startedAt >= log[j].startedAt)
  }

  /** The scan returns the log of the partition, cut at the cap. */
  lemma {:induction false} ScanIsRunLog(f: Format, m: MemView, t: Tables, id: EnclaveId, pid: PartitionId)
    returns (log: seq<IacRun>)
    requires Related(f, m, t) && IndexExact(f, m, t) && PlainIds(m) && SlashFree(id) && SlashFree(pid)
    requires TimeOrdered(f, m, id, pid)
    ensures RunLog(m, id, pid, log)
    ensures RunsListed(f, t, id, pid) == Some(FirstOnes(log, MAX_RUNS))
  {
    var keys := ScannedKeys(t.runsByPart, PartPrefix(id, pid));
    var all := RunsAt(m, t.runsByPart, keys);
    ScanSorted(SortedKeys(t.runsByPart.Keys), PartPrefix(id, pid));
    ScannedMembers(f, m, t, id, pid, keys);
    ScannedOrder(f, m, t, id, pid, keys);
    log := Reverse(all);
    ReverseLog(m, id, pid, all);
    FetchNewest(f, m, t, keys);
  }

  lemma {:induction false} FetchNewest(f: Format, m: MemView, t: Tables, keys: seq<string>)
    requires Related(f, m, t)
    requires forall i :: 0 <= i < |keys| ==> keys[i] in t.runsByPart && t.runsByPart[keys[i]] in m.runs
    ensures FetchRuns(f, t.runs, FirstOnes(Reverse(ValuesOf(t.runsByPart, keys)), MAX_RUNS)) ==
            Some(FirstOnes(Reverse(RunsAt(m, t.runsByPart, keys)), MAX_RUNS))
  {
    var ids, log := Reverse(ValuesOf(t.runsByPart, keys)), Reverse(RunsAt(m, t.runsByPart, keys));
    FetchReads(f, m, t.runs, FirstOnes(ids, MAX_RUNS), FirstOnes(log, MAX_RUNS));
  }

  lemma {:induction false} ScannedMembers(f: Format, m: MemView, t: Tables, id: EnclaveId, pid: PartitionId,
                                          keys: seq<string>)
    requires IndexExact(f, m, t) && PlainIds(m) && SlashFree(id) && SlashFree(pid)
    requires keys == ScannedKeys(t.runsByPart, PartPrefix(id, pid))
    ensures forall r :: r in RunsAt(m, t.runsByPart, keys) <==> r in m.runs.Values && Matches(r, id, pid)
  {
    var prefix, index := PartPrefix(id, pid), t.runsByPart;
    var all := RunsAt(m, index, keys);
    forall r | r in all ensures r in m.runs.Values && Matches(r, id, pid) {
      var i :| 0 <= i < |all| && all[i] == r;
      ScanKeysSome(SortedKeys(index.Keys), prefix, keys[i]);
      assert keys[i] in keys && IndexKey(f, r) == keys[i];
      PrefixIffMatches(f, r, id, pid);
    }
    forall r | r in m.runs.Values && Matches(r, id, pid) ensures r in all {
      var k := IndexKey(f, r);
      assert r.id in m.runs && m.runs[r.id] == r;
      PrefixIffMatches(f, r, id, pid);
      PrefixIsBound(prefix, k);
      ScanKeysSome(SortedKeys(index.Keys), prefix, k);
      var i :| 0 <= i < |keys| && keys[i] == k;
      assert IndexKey(f, m.runs[index[k]]) == k;
      KeyNamesRun(f, m.runs[index[k]], r);
      assert all[i] == r;
    }
  }

  /** In the order of the keys, starts do not decrease, and no run occurs twice. */
  lemma {:induction false} ScannedOrder(f: Format, m: MemView, t: Tables, id: EnclaveId, pid: PartitionId,
                                        keys: seq<string>)
    requires IndexExact(f, m, t) && TimeOrdered(f, m, id, pid) && StrictlySorted(keys)
    requires forall i :: 0 <= i < |keys| ==> keys[i] in t.runsByPart
    requires forall r :: r in RunsAt(m, t.runsByPart, keys) ==> Matches(r, id, pid)
    ensures Distinct(RunsAt(m, t.runsByPart, keys))
    ensures forall i, j :: 0 <= i < j < |keys| ==>
              RunsAt(m, t.runsByPart, keys)[i].startedAt <= RunsAt(m, t.runsByPart, keys)[j].startedAt
  {
    var all := RunsAt(m, t.runsByPart, keys);
    forall i, j | 0 <= i < j < |keys| ensures all[i] != all[j] && all[i].startedAt <= all[j].startedAt {
      assert all[i] in all && all[j] in all;
      assert IndexKey(f, all[i]) == keys[i] && IndexKey(f, all[j]) == keys[j];
      LexIrreflexive(keys[i]);
      if all[j].startedAt < all[i].startedAt {
        LaterRunLaterKey(f, all[j], all[i]);
        LexTransitive(keys[i], keys[j], keys[i]);
      }
    }
  }

  lemma {:induction false} ReverseLog(m: MemView, id: EnclaveId, pid: PartitionId, all: seq<IacRun>)
    requires Distinct(all)
    requires forall r :: r in all <==> r in m.runs.Values && Matches(r, id, pid)
    requires forall i, j :: 0 <= i < j < |all| ==> all[i].startedAt <= all[j].startedAt
    ensures RunLog(m, id, pid, Reverse(all))
  {
    var log, n := Reverse(all), |all| - 1;
    forall i, j | 0 <= i < j < |log| ensures log[i] != log[j] && log[i].startedAt >= log[j].startedAt {
      assert log[i] == all[n - i] && log[j] == all[n - j];
    }
    forall r ensures r in log <==> r in all {
      if r in all {
        var i :| 0 <= i < |all| && all[i] == r;
        assert log[n - i] == r;
      }
    }
  }

  // ----- the in-memory listing -----

  ghost predicate Descending(runs: seq<IacRun>) {
    forall i, j :: 0 <= i < j < |runs| ==> runs[i].startedAt >= runs[j].startedAt
  }

  lemma {:induction false} InsertRunMembers(r: IacRun, sorted: seq<IacRun>)
    ensures multiset(InsertRun(r, sorted)) == multiset(sorted) + multiset([r])
    decreases |sorted|
  {
    if sorted != [] && r.startedAt <= sorted[0].startedAt {
      InsertRunMembers(r, sorted[1..]);
      assert sorted == [sorted[0]] + sorted[1..];
    }
  }

  lemma {:induction false} InsertRunSorted(r: IacRun, sorted: seq<IacRun>)
    requires Descending(sorted)
    ensures Descending(InsertRun(r, sorted))
    decreases |sorted|
  {
    if sorted != [] && r.startedAt <= sorted[0].startedAt {
      var rest := sorted[1..];
      InsertRunSorted(r, rest);
      InsertRunMembers(r, rest);
      PrependDescending(sorted[0], r, rest, InsertRun(r, rest));
    }
  }

  lemma {:induction false} PrependDescending(first: IacRun, r: IacRun, rest: seq<IacRun>, tail: seq<IacRun>)
    requires Descending(tail) && multiset(tail) == multiset(rest) + multiset([r])
    requires first.startedAt >= r.startedAt && Descending([first] + rest)
    ensures Descending([first] + tail)
  {
    forall i | 0 <= i < |tail| ensures first.startedAt >= tail[i].startedAt {
      assert tail[i] in multiset(rest) + multiset([r]);
      if tail[i] in multiset(rest) {
        var j :| 0 <= j < |rest| && rest[j] == tail[i];
        assert ([first] + rest)[j + 1] == tail[i] && ([first] + rest)[0] == first;
      } else {
        assert tail[i] in multiset([r]);
        assert tail[i] == r;
      }
    }
  }

  lemma {:induction false} NewestFirstSorts(runs: seq<IacRun>)
    ensures Descending(NewestFirst(runs)) && multiset(NewestFirst(runs)) == multiset(runs)
    decreases |runs|
  {
    if runs != [] {
      var n := |runs| - 1;
      NewestFirstSorts(runs[..n]);
      InsertRunSorted(runs[n], NewestFirst(runs[..n]));
      InsertRunMembers(runs[n], NewestFirst(runs[..n]));
      assert runs == runs[..n] + [runs[n]];
    }
  }

  lemma {:induction false} RunsForMembers(runs: seq<IacRun>, id: EnclaveId, pid: PartitionId)
    requires Distinct(runs)
    ensures Distinct(RunsFor(runs, id, pid))
    ensures forall r :: r in RunsFor(runs, id, pid) <==> r in runs && Matches(r, id, pid)
    decreases |runs|
  {
    if runs != [] {
      assert runs == [runs[0]] + runs[1..];
      DistinctTail(runs);
      RunsForMembers(runs[1..], id, pid);
    }
  }

  lemma {:induction false} DistinctByMultiset<T(!new)>(a: seq<T>, b: seq<T>)
    requires Distinct(a) && multiset(a) == multiset(b)
    ensures Distinct(b) && forall x :: x in a <==> x in b
  {
    forall x | x in b ensures x in a {
      assert x in multiset(b);
    }
    forall x | x in a ensures x in b {
      assert x in multiset(a);
    }
    forall i, j | 0 <= i < j < |b| ensures b[i] != b[j] {
      if b[i] == b[j] {
        assert b == b[..i] + [b[i]] + b[i + 1..j] + [b[j]] + b[j + 1..];
        assert multiset(b)[b[i]] >= 2;
        DistinctOnce(a, b[i]);
      }
    }
  }

  lemma {:induction false} DistinctOnce<T(!new)>(a: seq<T>, x: T)
    requires Distinct(a)
    ensures multiset(a)[x] <= 1
    decreases |a|
  {
    if a != [] {
      assert a == [a[0]] + a[1..];
      DistinctTail(a);
      DistinctOnce(a[1..], x);
    }
  }

  /** The filter and sort of the in-memory store also return the log, cut at the cap. */
  lemma {:induction false} FilterIsRunLog(order: set<string> -> seq<string>, m: MemView, id: EnclaveId,
                                          pid: PartitionId)
    returns (log: seq<IacRun>)
    requires Visits(order) && forall k :: k in m.runs ==> m.runs[k].id == k
    ensures RunLog(m, id, pid, log)
    ensures MemStep(order, m, ListRuns(id, pid)).1 == Runs(FirstOnes(log, MAX_RUNS))
  {
    var keys := order(m.runs.Keys);
    assert Lists(keys, m.runs.Keys);
    forall i | 0 <= i < |keys| ensures keys[i] in m.runs {
      assert keys[i] in keys;
    }
    var vals := ValuesOf(m.runs, keys);
    assert Distinct(vals) by {
      forall i, j | 0 <= i < j < |vals| ensures vals[i] != vals[j] {
        assert vals[i].id == keys[i] && vals[j].id == keys[j];
      }
    }
    forall r ensures r in vals <==> r in m.runs.Values {
      if r in m.runs.Values {
        assert r.id in keys;
        var i :| 0 <= i < |keys| && keys[i] == r.id;
        assert vals[i] == r;
      }
    }
    RunsForMembers(vals, id, pid);
    var matching := RunsFor(vals, id, pid);
    log := NewestFirst(matching);
    NewestFirstSorts(matching);
    DistinctByMultiset(matching, log);
  }

  // ----- agreement -----

  ghost predicate DistinctStarts(m: MemView, id: EnclaveId, pid: PartitionId) {
    forall a, b :: a in m.runs.Values && b in m.runs.Values && Matches(a, id, pid) && Matches(b, id, pid) && a != b ==>
      a.startedAt != b.startedAt
  }

  /** With distinct start times there is only one log. */
  lemma {:induction false} RunLogUnique(m: MemView, id: EnclaveId, pid: PartitionId, a: seq<IacRun>, b: seq<IacRun>)
    requires RunLog(m, id, pid, a) && RunLog(m, id, pid, b) && DistinctStarts(m, id, pid)
    ensures a == b
  {
    StrictUnique(a, b);
  }

  lemma {:induction false} StrictUnique(a: seq<IacRun>, b: seq<IacRun>)
    requires Distinct(a) && Distinct(b) && Descending(a) && Descending(b)
    requires forall r :: r in a <==> r in b
    requires forall x, y :: x in a && y in a && x != y ==> x.startedAt != y.startedAt
    ensures a == b
    decreases |a|
  {
    EmptyOrMember(a);
    EmptyOrMember(b);
    if a != [] && b != [] {
      assert a[0] in b;
      var first := b[0];
      assert first in a && first.startedAt >= a[0].startedAt && a[0].startedAt >= first.startedAt by {
        var j :| 0 <= j < |b| && b[j] == a[0];
        assert b[0] in b;
        var i :| 0 <= i < |a| && a[i] == b[0];
      }
      assert a[0] == b[0];
      DistinctTail(a);
      DistinctTail(b);
      StrictUnique(a[1..], b[1..]);
      assert a == [a[0]] + a[1..] && b == [b[0]] + b[1..];
    }
  }

  /** The two stores list the runs of a partition alike. */
  lemma {:induction false} ListRunsAgree(order: set<string> -> seq<string>, f: Format, m: MemView, t: Tables,
                                         id: EnclaveId, pid: PartitionId)
    requires Visits(order) && Related(f, m, t) && IndexExact(f, m, t) && PlainIds(m) && TimeOrdered(f, m, id, pid)
    requires SlashFree(id) && SlashFree(pid) && DistinctStarts(m, id, pid)
    ensures MemStep(order, m, ListRuns(id, pid)).1 == RedbStep(f, t, ListRuns(id, pid)).1
  {
    var a := FilterIsRunLog(order, m, id, pid);
    var b := ScanIsRunLog(f, m, t, id, pid);
    RunLogUnique(m, id, pid, a, b);
  }

  // ----- a run whose key changes -----

  /** Every entry of the index leads to a stored run, so a listing reads one run per scanned key. */
  lemma {:induction false} ListingReadsKeys(f: Format, m: MemView, t: Tables, id: EnclaveId, pid: PartitionId)
    requires Related(f, m, t) && forall k :: k in t.runsByPart ==> t.runsByPart[k] in m.runs
    requires |ScannedKeys(t.runsByPart, PartPrefix(id, pid))| <= MAX_RUNS
    ensures var keys := ScannedKeys(t.runsByPart, PartPrefix(id, pid));
            RunsListed(f, t, id, pid) == Some(Reverse(RunsAt(m, t.runsByPart, keys)))
  {
    FetchNewest(f, m, t, ScannedKeys(t.runsByPart, PartPrefix(id, pid)));
  }

  lemma {:induction false} FirstOnesDistinct(log: seq<IacRun>, limit: nat)
    requires Distinct(log)
    ensures Distinct(FirstOnes(log, limit)) && forall r :: r in FirstOnes(log, limit) ==> r in log
  {
  }

  /**
   After a run has been written under a new key, listing its old partition (as long as the cap does not
   cut the listing) gives a run of another partition, or the same run twice.
   */
  lemma {:induction false} StaleEntryIsListed(f: Format, m: MemView, t: Tables, past: IacRun, run: IacRun)
    requires Related(f, m, t) && (forall k :: k in t.runsByPart ==> t.runsByPart[k] in m.runs)
    requires run.id in m.runs && m.runs[run.id] == run && SlashFree(past.enclaveId) && SlashFree(past.partitionId)
    requires IndexKey(f, past) != IndexKey(f, run)
    requires IndexKey(f, past) in t.runsByPart && t.runsByPart[IndexKey(f, past)] == run.id
    requires IndexKey(f, run) in t.runsByPart && t.runsByPart[IndexKey(f, run)] == run.id
    requires |ScannedKeys(t.runsByPart, PartPrefix(past.enclaveId, past.partitionId))| <= MAX_RUNS
    ensures var listed := RunsListed(f, t, past.enclaveId, past.partitionId);
            && listed.Some? && run in listed.value
            && (Matches(run, past.enclaveId, past.partitionId) ==> !Distinct(listed.value))
  {
    hide RunsListed, ScannedKeys, Reverse, Related, PartPrefix, IndexKey;
    var index, prefix := t.runsByPart, PartPrefix(past.enclaveId, past.partitionId);
    var keys := ScannedKeys(index, prefix);
    var all := RunsAt(m, index, keys);
    ListingReadsKeys(f, m, t, past.enclaveId, past.partitionId);
    PrefixIffMatches(f, past, past.enclaveId, past.partitionId);
    var i := KeyScanned(index, prefix, IndexKey(f, past));
    var n := |keys| - 1;
    assert Reverse(all)[n - i] == run;
    if Matches(run, past.enclaveId, past.partitionId) {
      PrefixIffMatches(f, run, past.enclaveId, past.partitionId);
      var j := KeyScanned(index, prefix, IndexKey(f, run));
      assert Reverse(all)[n - j] == run;
      assert i < j || j < i;
    }
  }

  lemma {:induction false} KeyScanned(index: map<string, string>, prefix: string, k: string) returns (i: nat)
    requires k in index && prefix <= k
    ensures i < |ScannedKeys(index, prefix)| && ScannedKeys(index, prefix)[i] == k
  {
    PrefixIsBound(prefix, k);
    ScanKeysSome(SortedKeys(index.Keys), prefix, k);
    i :| i < |ScannedKeys(index, prefix)| && ScannedKeys(index, prefix)[i] == k;
  }

  /**
   What a caller sees: after a known run is written again, the two stores list its old partition alike
   if and only if its key has not changed.
   */
  lemma {:induction false} ListingsAgreeIffKeyStable(order: set<string> -> seq<string>, f: Format, m: MemView,
                                                     t: Tables, run: IacRun)
    requires Visits(order) && Faithful(f) && Related(f, m, t) && IndexExact(f, m, t) && PlainIds(m) && PlainRun(run)
    requires run.id in m.runs
    requires var (past, m1) := (m.runs[run.id], MemStep(order, m, UpsertRun(run)).0);
             && DistinctStarts(m1, past.enclaveId, past.partitionId)
             && TimeOrdered(f, m1, past.enclaveId, past.partitionId)
    requires var (past, t1) := (m.runs[run.id], RedbStep(f, t, UpsertRun(run)).0);
             |ScannedKeys(t1.runsByPart, PartPrefix(past.enclaveId, past.partitionId))| <= MAX_RUNS
    ensures var past := m.runs[run.id];
            var (m1, t1) := (MemStep(order, m, UpsertRun(run)).0, RedbStep(f, t, UpsertRun(run)).0);
            var list := ListRuns(past.enclaveId, past.partitionId);
            MemStep(order, m1, list).1 == RedbStep(f, t1, list).1 <==> IndexKey(f, past) == IndexKey(f, run)
  {
    hide MemStep, RedbStep, Related, IndexExact, Indexes, PlainIds, TimeOrdered, DistinctStarts, IndexKey, ScannedKeys;
    var past := m.runs[run.id];
    var m1, t1 := MemStep(order, m, UpsertRun(run)).0, RedbStep(f, t, UpsertRun(run)).0;
    RunCallsAgree(order, f, m, t, UpsertRun(run));
    RunWritten(order, f, m, t, run);
    PlainIdsKept(order, m, run);
    PlainStored(m, run.id);
    if IndexKey(f, past) == IndexKey(f, run) {
      IndexStaysExactIffKeyStable(order, f, m, t, run);
      ListRunsAgree(order, f, m1, t1, past.enclaveId, past.partitionId);
    } else {
      StaleStays(f, m, t, run);
      StaleListingDiffers(order, f, m1, t1, past, run);
    }
  }

  lemma {:induction false} PlainStored(m: MemView, id: string)
    requires PlainIds(m) && id in m.runs
    ensures SlashFree(m.runs[id].enclaveId) && SlashFree(m.runs[id].partitionId)
  {
  }

  lemma {:induction false} RunWritten(order: set<string> -> seq<string>, f: Format, m: MemView, t: Tables, run: IacRun)
    requires Visits(order)
    ensures MemStep(order, m, UpsertRun(run)).0.runs == m.runs[run.id := run]
    ensures RedbStep(f, t, UpsertRun(run)).0.runsByPart == t.runsByPart[IndexKey(f, run) := run.id]
  {
  }

  lemma {:induction false} StaleListingDiffers(order: set<string> -> seq<string>, f: Format, m: MemView, t: Tables,
                                               past: IacRun, run: IacRun)
    requires Visits(order) && (forall k :: k in m.runs ==> m.runs[k].id == k)
    requires Related(f, m, t) && (forall k :: k in t.runsByPart ==> t.runsByPart[k] in m.runs)
    requires run.id in m.runs && m.runs[run.id] == run && SlashFree(past.enclaveId) && SlashFree(past.partitionId)
    requires IndexKey(f, past) != IndexKey(f, run)
    requires IndexKey(f, past) in t.runsByPart && t.runsByPart[IndexKey(f, past)] == run.id
    requires IndexKey(f, run) in t.runsByPart && t.runsByPart[IndexKey(f, run)] == run.id
    requires |ScannedKeys(t.runsByPart, PartPrefix(past.enclaveId, past.partitionId))| <= MAX_RUNS
    ensures var list := ListRuns(past.enclaveId, past.partitionId);
            MemStep(order, m, list).1 != RedbStep(f, t, list).1
  {
    StaleEntryIsListed(f, m, t, past, run);
    ListedByRedb(f, t, past.enclaveId, past.partitionId);
    hide MemStep, RedbStep, RunsListed;
    FilteredOnce(order, m, past.enclaveId, past.partitionId);
  }

  lemma {:induction false} ListedByRedb(f: Format, t: Tables, id: EnclaveId, pid: PartitionId)
    ensures var found := RunsListed(f, t, id, pid);
            RedbStep(f, t, ListRuns(id, pid)).1 == if found.None? then Refused(Serialization) else Runs(found.value)
  {
  }

  lemma {:induction false} StaleStays(f: Format, m: MemView, t: Tables, run: IacRun)
    requires IndexExact(f, m, t) && PlainIds(m) && run.id in m.runs && IndexKey(f, m.runs[run.id]) != IndexKey(f, run)
    ensures var index := t.runsByPart[IndexKey(f, run) := run.id];
            && IndexKey(f, m.runs[run.id]) in index && index[IndexKey(f, m.runs[run.id])] == run.id
            && (forall k :: k in index ==> index[k] in m.runs)
            && forall k :: k in m.runs ==> m.runs[k].id == k
  {
    var stale := IndexKey(f, m.runs[run.id]);
    KeyNamesRun(f, m.runs[t.runsByPart[stale]], m.runs[run.id]);
  }

  lemma {:induction false} FilteredOnce(order: set<string> -> seq<string>, m: MemView, id: EnclaveId, pid: PartitionId)
    requires Visits(order) && forall k :: k in m.runs ==> m.runs[k].id == k
    ensures var answer := MemStep(order, m, ListRuns(id, pid)).1;
            answer.Runs? && Distinct(answer.runs) && forall r :: r in answer.runs ==> Matches(r, id, pid)
  {
    var log := FilterIsRunLog(order, m, id, pid);
    FirstOnesDistinct(log, MAX_RUNS);
  }

  // ----- ids with a '/' -----

  /** A text with a '/' is a text without one, a '/', and a rest. */
  lemma {:induction false} CutAtSlash(s: string) returns (head: string, rest: string)
    requires !SlashFree(s)
    ensures SlashFree(head) && s == head + ("/" + rest)
  {
    if s[0] == '/' {
      head, rest := "", s[1..];
      assert s == ['/'] + s[1..];
    } else {
      assert s == [s[0]] + s[1..];
      head, rest := CutAtSlash(s[1..]);
      assert s == [s[0]] + (head + ("/" + rest));
      head := [s[0]] + head;
    }
  }

  /** A run of an id with a '/' is found under another partition, whose ids have none. */
  lemma {:induction false} SlashMisleads(f: Format, run: IacRun) returns (id: EnclaveId, pid: PartitionId)
    requires !SlashFree(run.enclaveId) || !SlashFree(run.partitionId)
    ensures SlashFree(id) && SlashFree(pid)
    ensures PartPrefix(id, pid) <= IndexKey(f, run) && !Matches(run, id, pid)
  {
    var tail := f.timeText(run.startedAt) + "/" + run.id;
    var inner := run.partitionId + ("/" + tail);
    assert IndexKey(f, run) == run.enclaveId + ("/" + inner);
    if SlashFree(run.enclaveId) {
      var rest: string;
      id := run.enclaveId;
      pid, rest := CutAtSlash(run.partitionId);
      assert IndexKey(f, run) == PartPrefix(id, pid) + (rest + ("/" + tail));
    } else {
      var rest, more: string;
      id, rest := CutAtSlash(run.enclaveId);
      assert '/' in rest + ("/" + inner) by {
        assert (rest + ("/" + inner))[|rest|] == '/';
      }
      pid, more := CutAtSlash(rest + ("/" + inner));
      assert IndexKey(f, run) == id + ("/" + (rest + ("/" + inner)));
      assert IndexKey(f, run) == PartPrefix(id, pid) + more;
    }
  }

  /** Prefixes of plain ids find a run exactly under its own partition if and only if its ids are plain too. */
  lemma {:induction false} PrefixExactIffSlashFree(f: Format, run: IacRun)
    ensures (forall id, pid :: SlashFree(id) && SlashFree(pid) ==>
               (PartPrefix(id, pid) <= IndexKey(f, run) <==> Matches(run, id, pid)))
            <==> SlashFree(run.enclaveId) && SlashFree(run.partitionId)
  {
    if SlashFree(run.enclaveId) && SlashFree(run.partitionId) {
      forall id, pid | SlashFree(id) && SlashFree(pid)
        ensures PartPrefix(id, pid) <= IndexKey(f, run) <==> Matches(run, id, pid)
      {
        PrefixIffMatches(f, run, id, pid);
      }
    } else {
      var id, pid := SlashMisleads(f, run);
    }
  }

  /** The two stores after their first run. */
  ghost function MemWith(order: set<string> -> seq<string>, run: IacRun): MemView
    requires Visits(order)
  {
    MemStep(order, EMPTY_VIEW, UpsertRun(run)).0
  }

  ghost function RedbWith(f: Format, run: IacRun): Tables {
    RedbStep(f, EMPTY_TABLES, UpsertRun(run)).0
  }

  /** With one run stored, the index listing has it exactly when the prefix matches. */
  lemma {:induction false} OneRunScanned(f: Format, run: IacRun, id: EnclaveId, pid: PartitionId)
    requires Faithful(f)
    ensures RunsListed(f, RedbWith(f, run), id, pid) == Some(if PartPrefix(id, pid) <= IndexKey(f, run) then [run]
                                                             else [])
  {
    hide FetchRuns, IndexKey, RedbWith, ScannedKeys;
    RedbWithIs(f, run);
    var t, key, prefix := RedbWith(f, run), IndexKey(f, run), PartPrefix(id, pid);
    OneKeyScanned(t.runsByPart, key, prefix);
    var ids := Reverse(ValuesOf(t.runsByPart, ScannedKeys(t.runsByPart, prefix)));
    assert f.run.dec(f.run.enc(run)) == Some(run);
    if prefix <= key {
      assert ids == [run.id];
      OneFetched(f, t.runs, run);
    } else {
      assert ids == [];
      NoneFetched(f, t.runs);
    }
  }

  lemma {:induction false} RedbWithIs(f: Format, run: IacRun)
    ensures RedbWith(f, run).runs == map[run.id := f.run.enc(run)]
    ensures RedbWith(f, run).runsByPart == map[IndexKey(f, run) := run.id]
  {
  }

  lemma {:induction false} NoneFetched(f: Format, table: map<string, Bytes>)
    ensures FetchRuns(f, table, []) == Some([])
  {
  }

  lemma {:induction false} OneFetched(f: Format, table: map<string, Bytes>, run: IacRun)
    requires run.id in table && f.run.dec(table[run.id]) == Some(run)
    ensures FetchRuns(f, table, [run.id]) == Some([run])
  {
    var ids := [run.id];
    assert ids[..0] == [];
    assert FetchRuns(f, table, []) == Some([]);
    assert [] + [run] == [run];
  }

  /** With one run stored, the filter has it exactly when the ids match. */
  lemma {:induction false} OneRunFiltered(order: set<string> -> seq<string>, run: IacRun, id: EnclaveId,
                                          pid: PartitionId)
    requires Visits(order)
    ensures MemStep(order, MemWith(order, run), ListRuns(id, pid)).1 == Runs(if Matches(run, id, pid) then [run]
        else [])
  {
    hide NewestFirst, RunsFor;
    var m := MemWith(order, run);
    var keys := order(m.runs.Keys);
    assert Lists(keys, m.runs.Keys);
    assert m.runs.Keys == {run.id};
    ListsCount(keys, {run.id});
    assert keys[0] in keys;
    assert ValuesOf(m.runs, keys) == [run];
    OneFiltered(run, id, pid);
  }

  lemma {:induction false} OneFiltered(run: IacRun, id: EnclaveId, pid: PartitionId)
    ensures NewestFirst(RunsFor([run], id, pid)) == if Matches(run, id, pid) then [run] else []
  {
    assert [run][1..] == [];
    assert RunsFor([run], id, pid) == (if Matches(run, id, pid) then [run] else []) + RunsFor([], id, pid);
    assert NewestFirst([run]) == InsertRun(run, NewestFirst([]));
  }

  lemma {:induction false} OneKeyScanned(index: map<string, string>, key: string, prefix: string)
    requires index.Keys == {key}
    ensures ScannedKeys(index, prefix) == if prefix <= key then [key] else []
  {
    var keys := SortedKeys({key});
    SortedLists({key});
    ListsCount(keys, {key});
    assert keys[0] in keys;
    assert keys == [key] && keys[1..] == [];
    if prefix <= key {
      PrefixIsBound(prefix, key);
    }
    assert ScanKeys(keys, prefix) == (if LexLeq(prefix, key) && prefix <= key then [key] else [])
        + ScanKeys([], prefix);
    assert index.Keys == {key};
  }

  /**
   With one run stored, the two stores answer every listing for plain ids alike if and only if the run's
   own ids are plain; otherwise the persistent store lists it under a partition it does not belong to.
   */
  lemma {:induction false} OneRunListedAlikeIffSlashFree(order: set<string> -> seq<string>, f: Format, run: IacRun)
    requires Visits(order) && Faithful(f)
    ensures (forall id, pid :: SlashFree(id) && SlashFree(pid) ==>
               MemStep(order, MemWith(order, run), ListRuns(id, pid)).1
                   == RedbStep(f, RedbWith(f, run), ListRuns(id, pid)).1)
            <==> SlashFree(run.enclaveId) && SlashFree(run.partitionId)
  {
    hide MemStep, MemWith, RedbStep, RedbWith, RunsListed;
    forall id, pid ensures RedbStep(f, RedbWith(f, run), ListRuns(id, pid)).1 ==
                           (var found := RunsListed(f, RedbWith(f, run), id, pid);
                            if found.None? then Refused(Serialization) else Runs(found.value)) {
      ListedByRedb(f, RedbWith(f, run), id, pid);
    }
    if SlashFree(run.enclaveId) && SlashFree(run.partitionId) {
      forall id, pid | SlashFree(id) && SlashFree(pid)
        ensures MemStep(order, MemWith(order, run), ListRuns(id, pid)).1
                == RedbStep(f, RedbWith(f, run), ListRuns(id, pid)).1
      {
        PrefixIffMatches(f, run, id, pid);
        OneRunScanned(f, run, id, pid);
        OneRunFiltered(order, run, id, pid);
      }
    } else {
      var id, pid := SlashMisleads(f, run);
      OneRunScanned(f, run, id, pid);
      OneRunFiltered(order, run, id, pid);
    }
  }

  /** Run `c` of enclave `a/b` is listed as a run of partition `b` of enclave `a`. */
  lemma {:induction false} SlashListsForeignRun(order: set<string> -> seq<string>, f: Format, run: IacRun)
    requires Visits(order) && Faithful(f) && run.enclaveId == "a/b" && run.partitionId == "c"
    ensures RedbStep(f, RedbWith(f, run), ListRuns("a", "b")).1 == Runs([run])
    ensures MemStep(order, MemWith(order, run), ListRuns("a", "b")).1 == Runs([])
  {
    hide MemStep, MemWith, RedbWith, RunsListed;
    var tail := f.timeText(run.startedAt) + "/" + run.id;
    assert IndexKey(f, run) == PartPrefix("a", "b") + ("c/" + tail);
    OneRunScanned(f, run, "a", "b");
    OneRunFiltered(order, run, "a", "b");
  }

  /**
   The scan of an exact index stays within the partition, for all plain ids, exactly when all stored ids are
   plain.
   */
  lemma {:induction false} ScansExactIffIdsPlain(f: Format, runs: map<string, IacRun>, index: map<string, string>)
    requires Indexes(f, runs, index) && forall id :: id in runs ==> SlashFree(id)
    ensures (forall id, pid, k :: SlashFree(id) && SlashFree(pid) && k in ScannedKeys(index, PartPrefix(id, pid)) ==>
               Scanned(runs, index, k, id, pid))
            <==> forall r :: r in runs.Values ==> SlashFree(r.enclaveId) && SlashFree(r.partitionId)
  {
    if forall r :: r in runs.Values ==> SlashFree(r.enclaveId) && SlashFree(r.partitionId) {
      forall id, pid, k | SlashFree(id) && SlashFree(pid) && k in ScannedKeys(index, PartPrefix(id, pid))
        ensures Scanned(runs, index, k, id, pid)
      {
        ScanKeysSome(SortedKeys(index.Keys), PartPrefix(id, pid), k);
        PrefixIffMatches(f, runs[index[k]], id, pid);
      }
    } else {
      var r :| r in runs.Values && !(SlashFree(r.enclaveId) && SlashFree(r.partitionId));
      ForeignRunScanned(f, runs, index, r);
    }
  }

  ghost predicate Scanned(runs: map<string, IacRun>, index: map<string, string>, k: string, id: EnclaveId,
                          pid: PartitionId) {
    k in index && index[k] in runs && Matches(runs[index[k]], id, pid)
  }

  lemma {:induction false} ForeignRunScanned(f: Format, runs: map<string, IacRun>, index: map<string, string>,
                                             r: IacRun)
    requires Indexes(f, runs, index) && (forall id :: id in runs ==> SlashFree(id))
    requires r in runs.Values && !(SlashFree(r.enclaveId) && SlashFree(r.partitionId))
    ensures exists id, pid, k :: SlashFree(id) && SlashFree(pid) && k in ScannedKeys(index, PartPrefix(id, pid)) &&
              !Scanned(runs, index, k, id, pid)
  {
    var k := IndexKey(f, r);
    assert k in index;
    var id, pid := SlashMisleads(f, r);
    PrefixIsBound(PartPrefix(id, pid), k);
    ScanKeysSome(SortedKeys(index.Keys), PartPrefix(id, pid), k);
    KeyNamesRun(f, runs[index[k]], r);
    assert k in ScannedKeys(index, PartPrefix(id, pid)) && !Scanned(runs, index, k, id, pid);
  }

  // ----- whole sequences of calls, listings of runs included -----

  /**
   Runs have plain ids and keep their key; listings ask for plain ids, with start times that are distinct and
   printed in order.
   */
  ghost predicate CallOk(f: Format, m: MemView, op: Op) {
    match op
    case UpsertRun(run) => PlainRun(run) && (run.id in m.runs ==> IndexKey(f, m.runs[run.id]) == IndexKey(f, run))
    case ListRuns(id, pid) =>
      SlashFree(id) && SlashFree(pid) && DistinctStarts(m, id, pid) && TimeOrdered(f, m, id, pid)
    case _ => true
  }

  ghost predicate CallsOk(order: set<string> -> seq<string>, f: Format, m: MemView, ops: seq<Op>)
    requires Visits(order)
    decreases |ops|
  {
    ops == [] || (CallOk(f, m, ops[0]) && CallsOk(order, f, MemStep(order, m, ops[0]).0, ops[1..]))
  }

  lemma {:induction false} IndexKept(order: set<string> -> seq<string>, f: Format, m: MemView, t: Tables, op: Op)
    requires Visits(order) && IndexExact(f, m, t) && PlainIds(m) && CallOk(f, m, op)
    ensures IndexExact(f, MemStep(order, m, op).0, RedbStep(f, t, op).0) && PlainIds(MemStep(order, m, op).0)
  {
    hide MemStep, RedbStep;
    if op.UpsertRun? {
      IndexStaysExactIffKeyStable(order, f, m, t, op.run);
      PlainIdsKept(order, m, op.run);
    } else {
      RunsUntouched(order, f, m, t, op);
    }
  }

  lemma {:induction false} PlainIdsKept(order: set<string> -> seq<string>, m: MemView, run: IacRun)
    requires Visits(order) && PlainIds(m) && PlainRun(run)
    ensures PlainIds(MemStep(order, m, UpsertRun(run)).0)
  {
  }

  lemma {:induction false} RunsUntouched(order: set<string> -> seq<string>, f: Format, m: MemView, t: Tables, op: Op)
    requires Visits(order) && !op.UpsertRun?
    ensures MemStep(order, m, op).0.runs == m.runs && RedbStep(f, t, op).0.runsByPart == t.runsByPart
  {
  }

  lemma {:induction false} AllCallsAgree(order: set<string> -> seq<string>, f: Format, m: MemView, t: Tables,
                                         ops: seq<Op>)
    requires Visits(order) && Faithful(f)
    requires Related(f, m, t) && IndexExact(f, m, t) && PlainIds(m) && CallsOk(order, f, m, ops)
    ensures var xs, ys := MemRun(order, m, ops).1, RedbRun(f, t, ops).1;
            |xs| == |ys| == |ops| && forall i :: 0 <= i < |ops| ==> Agree(xs[i], ys[i])
    decreases |ops|
  {
    if ops != [] {
      OneCallAgrees(order, f, m, t, ops[0]);
      var m1, t1 := MemStep(order, m, ops[0]).0, RedbStep(f, t, ops[0]).0;
      AllCallsAgree(order, f, m1, t1, ops[1..]);
      MemRunCons(order, m, ops);
      RedbRunCons(f, t, ops);
    }
  }

  lemma {:induction false} OneCallAgrees(order: set<string> -> seq<string>, f: Format, m: MemView, t: Tables, op: Op)
    requires Visits(order) && Faithful(f)
    requires Related(f, m, t) && IndexExact(f, m, t) && PlainIds(m) && CallOk(f, m, op)
    ensures var m1, t1 := MemStep(order, m, op).0, RedbStep(f, t, op).0;
            Related(f, m1, t1) && IndexExact(f, m1, t1) && PlainIds(m1)
    ensures Agree(MemStep(order, m, op).1, RedbStep(f, t, op).1)
  {
    StepAgrees(order, f, m, t, op);
    IndexKept(order, f, m, t, op);
    if op.ListRuns? {
      ListRunsAgree(order, f, m, t, op.id, op.pid);
    }
  }

  lemma {:induction false} MemRunCons(order: set<string> -> seq<string>, m: MemView, ops: seq<Op>)
    requires Visits(order) && ops != []
    ensures MemRun(order, m, ops).1 == [MemStep(order, m, ops[0]).1]
            + MemRun(order, MemStep(order, m, ops[0]).0, ops[1..]).1
  {
  }

  lemma {:induction false} RedbRunCons(f: Format, t: Tables, ops: seq<Op>)
    requires ops != []
    ensures RedbRun(f, t, ops).1 == [RedbStep(f, t, ops[0]).1] + RedbRun(f, RedbStep(f, t, ops[0]).0, ops[1..]).1
  {
  }

  /** From two empty stores no sequence of such calls can tell them apart. */
  lemma {:induction false} StoresIndistinguishable(order: set<string> -> seq<string>, f: Format, ops: seq<Op>)
    requires Visits(order) && Faithful(f) && CallsOk(order, f, EMPTY_VIEW, ops)
    ensures var xs, ys := MemRun(order, EMPTY_VIEW, ops).1, RedbRun(f, EMPTY_TABLES, ops).1;
            |xs| == |ys| == |ops| && forall i :: 0 <= i < |ops| ==> Agree(xs[i], ys[i])
  {
    AllCallsAgree(order, f, EMPTY_VIEW, EMPTY_TABLES, ops);
  }
}

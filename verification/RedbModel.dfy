/**
 The persistent store on ordered byte tables (crates/nclav-store/src/redb_store.rs): records are
 serialised, events are numbered by a counter, runs are found through an index of text keys.
 */
module RedbModel {
  import opened Prelude
  import opened Ordering
  import opened Json
  import opened Domain
  import opened State
  import opened StoreModel

  /** A serialiser and its parser; parsing can fail. */
  datatype Codec<!T> = Codec(enc: T -> Bytes, dec: Bytes -> Option<T>)

  ghost predicate Lossless<T(!new)>(c: Codec<T>) {
    forall x: T :: c.dec(c.enc(x)) == Some(x)
  }

  /** How records are written, and how a start time is printed in an index key. */
  datatype Format = Format(
    enclave: Codec<EnclaveState>, event: Codec<AuditEvent>, lock: Codec<Json>, run: Codec<IacRun>,
    timeText: Time -> string)

  ghost predicate Faithful(f: Format) {
    Lossless(f.enclave) && Lossless(f.event) && Lossless(f.lock) && Lossless(f.run)
  }

  datatype Tables = Tables(
    enclaves: map<string, Bytes>,
    events: map<nat, Bytes>,
    meta: map<string, nat>,
    tfState: map<string, Bytes>,
    tfLocks: map<string, Bytes>,
    runs: map<string, Bytes>,
    runsByPart: map<string, string>)

  const EMPTY_TABLES := Tables(map[], map[], map[], map[], map[], map[], map[])

  const EVENT_SEQ := "event_seq"

  // ----- iteration in key order -----

  predicate IsLeastNat(k: nat, s: set<nat>) {
    k in s && forall x :: x in s ==> k <= x
  }

  lemma {:induction false} LeastNatExists(s: set<nat>)
    requires s != {}
    ensures exists k :: IsLeastNat(k, s)
  {
    var y :| y in s;
    var rest := s - {y};
    if rest == {} {
      assert s == {y};
      assert IsLeastNat(y, s);
    } else {
      LeastNatExists(rest);
      var k :| IsLeastNat(k, rest);
      assert s == rest + {y};
      assert IsLeastNat(if k < y then k else y, s);
    }
  }

  function LeastNat(s: set<nat>): (k: nat)
    requires s != {}
    ensures IsLeastNat(k, s)
  {
    LeastNatExists(s);
    var k :| k in s && IsLeastNat(k, s);
    k
  }

  function AscendingKeys(s: set<nat>): (r: seq<nat>)
    ensures forall x :: x in r <==> x in s
  {
    if s == {} then [] else var k := LeastNat(s); [k] + AscendingKeys(s - {k})
  }

  /** Parse the values under the given keys, in order; any failure fails the whole. */
  function DecodeAll<K, T>(dec: Bytes -> Option<T>, table: map<K, Bytes>, keys: seq<K>): Option<seq<T>>
    requires forall i :: 0 <= i < |keys| ==> keys[i] in table
  {
    if keys == [] then Some([])
    else
      var before := DecodeAll(dec, table, keys[..|keys| - 1]);
      var last := dec(table[keys[|keys| - 1]]);
      if before.Some? && last.Some? then Some(before.value + [last.value]) else None
  }

  // ----- runs -----

  function PartPrefix(id: EnclaveId, pid: PartitionId): string {
    id + "/" + (pid + "/")
  }

  /** "{enclave}/{partition}/{started_at}/{run}" */
  function IndexKey(f: Format, run: IacRun): string {
    PartPrefix(run.enclaveId, run.partitionId) + (f.timeText(run.startedAt) + "/" + run.id)
  }

  /** The keys from `prefix` on that start with it, in order. */
  function ScanKeys(keys: seq<string>, prefix: string): seq<string> {
    if keys == [] then []
    else (if LexLeq(prefix, keys[0]) && prefix <= keys[0] then [keys[0]] else []) + ScanKeys(keys[1..], prefix)
  }

  function Reverse<T>(s: seq<T>): (r: seq<T>)
    ensures |r| == |s| && forall i :: 0 <= i < |s| ==> r[i] == s[|s| - 1 - i]
  {
    if s == [] then [] else Reverse(s[1..]) + [s[0]]
  }

  /** Look the run ids up; ids without a record are passed over, unreadable records fail the call. */
  function FetchRuns(f: Format, table: map<string, Bytes>, ids: seq<string>): Option<seq<IacRun>> {
    if ids == [] then Some([])
    else
      var before := FetchRuns(f, table, ids[..|ids| - 1]);
      var id := ids[|ids| - 1];
      if before.None? || id !in table then before
      else
        var run := f.run.dec(table[id]);
        if run.None? then None else Some(before.value + [run.value])
  }

  lemma {:induction false} ScanKeysSome(keys: seq<string>, prefix: string, k: string)
    ensures k in ScanKeys(keys, prefix) <==> k in keys && LexLeq(prefix, k) && prefix <= k
    decreases |keys|
  {
    if keys != [] {
      ScanKeysSome(keys[1..], prefix, k);
      assert keys == [keys[0]] + keys[1..];
    }
  }

  function ScannedKeys(index: map<string, string>, prefix: string): (r: seq<string>)
    ensures forall i :: 0 <= i < |r| ==> r[i] in index
  {
    var r := ScanKeys(SortedKeys(index.Keys), prefix);
    assert forall i :: 0 <= i < |r| ==> r[i] in index by {
      forall i | 0 <= i < |r| ensures r[i] in index {
        ScanKeysSome(SortedKeys(index.Keys), prefix, r[i]);
      }
    }
    r
  }

  function RunsListed(f: Format, t: Tables, id: EnclaveId, pid: PartitionId): Option<seq<IacRun>> {
    FetchRuns(f, t.runs, FirstOnes(Reverse(ValuesOf(t.runsByPart, ScannedKeys(t.runsByPart, PartPrefix(id, pid)))),
                                   MAX_RUNS))
  }

  // ----- the calls -----

  function StoredEnclave(f: Format, t: Tables, id: EnclaveId): Answer {
    if id !in t.enclaves then OneEnclave(None)
    else
      var es := f.enclave.dec(t.enclaves[id]);
      if es.None? then Refused(Serialization) else OneEnclave(es)
  }

  function WriteEnclave(f: Format, t: Tables, es: EnclaveState): Tables {
    t.(enclaves := t.enclaves[es.desired.id := f.enclave.enc(es)])
  }

  function EventSeq(t: Tables): nat {
    if EVENT_SEQ in t.meta then t.meta[EVENT_SEQ] else 0
  }

  function RedbStep(f: Format, t: Tables, op: Op): (Tables, Answer) {
    match op
    case GetEnclave(id) => (t, StoredEnclave(f, t, id))
    case ListEnclaves =>
      var all := DecodeAll(f.enclave.dec, t.enclaves, SortedKeys(t.enclaves.Keys));
      (t, if all.None? then Refused(Serialization) else Enclaves(all.value))
    case UpsertEnclave(s) => (WriteEnclave(f, t, s), Nothing)
    case DeleteEnclave(id) => (t.(enclaves := t.enclaves - {id}), Nothing)
    case UpsertPartition(id, part) =>
      (match StoredEnclave(f, t, id)
       case OneEnclave(Some(es)) =>
         (WriteEnclave(f, t, es.(partitions := es.partitions[part.desired.id := part])), Nothing)
       case OneEnclave(None) => (t, Refused(EnclaveNotFound(id)))
       case other => (t, other))
    case DeletePartition(id, pid) =>
      (match StoredEnclave(f, t, id)
       case OneEnclave(Some(es)) => (WriteEnclave(f, t, es.(partitions := es.partitions - {pid})), Nothing)
       case OneEnclave(None) => (t, Nothing)
       case other => (t, other))
    case AppendEvent(ev) =>
      var n := EventSeq(t) + 1;
      (t.(meta := t.meta[EVENT_SEQ := n], events := t.events[n := f.event.enc(ev)]), Nothing)
    case ListEvents(filter, limit) =>
      var all := DecodeAll(f.event.dec, t.events, AscendingKeys(t.events.Keys));
      (t, if all.None? then Refused(Serialization) else Events(LastOnes(WantedEvents(all.value, filter), limit)))
    case GetTfState(key) => (t, Blob(if key in t.tfState then Some(t.tfState[key]) else None))
    case PutTfState(key, blob) => (t.(tfState := t.tfState[key := blob]), Nothing)
    case DeleteTfState(key) => (t.(tfState := t.tfState - {key}, tfLocks := t.tfLocks - {key}), Nothing)
    case LockTfState(key, info) =>
      if key in t.tfLocks then
        var holder := f.lock.dec(t.tfLocks[key]);
        (t, Refused(if holder.None? then Serialization else LockConflict(holder.value)))
      else (t.(tfLocks := t.tfLocks[key := f.lock.enc(info)]), Nothing)
    case UnlockTfState(key, lockId) =>
      if key !in t.tfLocks then (t, Nothing)
      else
        var holder := f.lock.dec(t.tfLocks[key]);
        if holder.None? then (t, Refused(Serialization))
        else if Releases(lockId, holder.value) then (t.(tfLocks := t.tfLocks - {key}), Nothing)
        else (t, Nothing)
    case UpsertRun(run) =>
      (t.(runs := t.runs[run.id := f.run.enc(run)], runsByPart := t.runsByPart[IndexKey(f, run) := run.id]), Nothing)
    case ListRuns(id, pid) =>
      var found := RunsListed(f, t, id, pid);
      (t, if found.None? then Refused(Serialization) else Runs(found.value))
    case GetRun(id) =>
      if id !in t.runs then (t, OneRun(None))
      else
        var run := f.run.dec(t.runs[id]);
        (t, if run.None? then Refused(Serialization) else OneRun(run))
  }
}

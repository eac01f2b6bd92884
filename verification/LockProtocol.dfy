/** The Terraform state lock over arbitrary sequences of store calls (crates/nclav-store/src/memory.rs). */
module LockProtocol {
  import opened Prelude
  import opened Json
  import opened StoreModel
  import opened StoreSimulation

  /**
   This call ends a lock on `key` that was taken with `info`: an unlock without an ID, an unlock with the ID
   the holder gave under "ID", or a delete of the state.
   */
  predicate Frees(op: Op, key: string, info: Json) {
    || (op.UnlockTfState? && op.key == key && (op.lockId == "" || Get(info, "ID") == Some(JStr(op.lockId))))
    || (op.DeleteTfState? && op.key == key)
  }

  /** The i-th call took the lock on `key`. */
  predicate Takes(ops: seq<Op>, answers: seq<Answer>, i: nat, key: string)
    requires i < |ops| == |answers|
  {
    ops[i].LockTfState? && ops[i].key == key && answers[i] == Nothing
  }

  /** While the lock is held, a call that does not free it leaves it held, with the same information. */
  lemma {:induction false} HeldUntilFreed(order: set<string> -> seq<string>, m: MemView, op: Op, key: string)
    requires Visits(order) && key in m.tfLocks
    ensures var locks := MemStep(order, m, op).0.tfLocks;
            if Frees(op, key, m.tfLocks[key]) then key !in locks else key in locks && locks[key] == m.tfLocks[key]
    ensures op.LockTfState? && op.key == key ==> MemStep(order, m, op) == (m, Refused(LockConflict(m.tfLocks[key])))
    ensures op.UnlockTfState? && !Frees(op, key, m.tfLocks[key]) && op.key == key ==> MemStep(order, m, op).0 == m
  {
  }

  /**
   After a lock taken under an ID, and any calls that do not free it, an unlock with that ID frees the key,
   and one with any other text but the empty one changes nothing.
   */
  lemma {:induction false} UnlockTakesTheHoldersId(order: set<string> -> seq<string>, m: MemView, key: string,
                                                   info: Json, id: string, between: seq<Op>)
    requires Visits(order) && key !in m.tfLocks && id != "" && Get(info, "ID") == Some(JStr(id))
    requires forall op :: op in between ==> !Frees(op, key, info)
    ensures var held := MemRun(order, MemStep(order, m, LockTfState(key, info)).0, between).0;
            && key in held.tfLocks && held.tfLocks[key] == info
            && MemStep(order, held, UnlockTfState(key, id)).0 == held.(tfLocks := held.tfLocks - {key})
            && forall other :: other != id && other != "" ==> MemStep(order, held, UnlockTfState(key, other)).0 == held
  {
    StaysHeld(order, MemStep(order, m, LockTfState(key, info)).0, between, key);
  }

  lemma {:induction false} StaysHeld(order: set<string> -> seq<string>, m: MemView, ops: seq<Op>, key: string)
    requires Visits(order) && key in m.tfLocks && forall op :: op in ops ==> !Frees(op, key, m.tfLocks[key])
    ensures var held := MemRun(order, m, ops).0; key in held.tfLocks && held.tfLocks[key] == m.tfLocks[key]
    decreases |ops|
  {
    hide MemStep;
    if ops != [] {
      assert ops == [ops[0]] + ops[1..];
      HeldUntilFreed(order, m, ops[0], key);
      StaysHeld(order, MemStep(order, m, ops[0]).0, ops[1..], key);
    }
  }

  lemma {:induction false} MemRunLength(order: set<string> -> seq<string>, m: MemView, ops: seq<Op>)
    requires Visits(order)
    ensures |MemRun(order, m, ops).1| == |ops|
    decreases |ops|
  {
    if ops != [] {
      MemRunLength(order, MemStep(order, m, ops[0]).0, ops[1..]);
    }
  }

  /** If the lock is held, nobody takes it before it has been freed. */
  lemma {:induction false} NotTakenWhileHeld(order: set<string> -> seq<string>, m: MemView, ops: seq<Op>, key: string,
                                             j: nat)
    requires Visits(order) && key in m.tfLocks && j < |ops|
    requires forall k :: 0 <= k < j ==> !Frees(ops[k], key, m.tfLocks[key])
    ensures |MemRun(order, m, ops).1| == |ops| && !Takes(ops, MemRun(order, m, ops).1, j, key)
    decreases |ops|
  {
    MemRunLength(order, m, ops);
    HeldUntilFreed(order, m, ops[0], key);
    if j > 0 {
      assert !Frees(ops[0], key, m.tfLocks[key]);
      var m1 := MemStep(order, m, ops[0]).0;
      forall k | 0 <= k < j - 1 ensures !Frees(ops[1..][k], key, m1.tfLocks[key]) {
        assert ops[1..][k] == ops[k + 1];
      }
      NotTakenWhileHeld(order, m1, ops[1..], key, j - 1);
      assert MemRun(order, m, ops).1[j] == MemRun(order, m1, ops[1..]).1[j - 1];
    }
  }

  /**
   Mutual exclusion: between two successful locks of one key, some call freed the first one:
   an unlock with the first holder's ID, an unlock without an ID, or a delete of the state.
   */
  lemma {:induction false} LocksExclude(order: set<string> -> seq<string>, m: MemView, ops: seq<Op>, key: string,
                                        i: nat, j: nat)
    requires Visits(order) && i < j < |ops| && |MemRun(order, m, ops).1| == |ops|
    requires Takes(ops, MemRun(order, m, ops).1, i, key) && Takes(ops, MemRun(order, m, ops).1, j, key)
    ensures exists k :: i < k < j && Frees(ops[k], key, ops[i].info)
    decreases |ops|
  {
    var m1 := MemStep(order, m, ops[0]).0;
    var rest := ops[1..];
    MemRunLength(order, m1, rest);
    assert forall k :: 0 < k < |ops| ==>
        MemRun(order, m, ops).1[k] == MemRun(order, m1, rest).1[k - 1] && ops[k] == rest[k - 1];
    if i > 0 {
      LocksExclude(order, m1, rest, key, i - 1, j - 1);
      var k :| i - 1 < k < j - 1 && Frees(rest[k], key, rest[i - 1].info);
      assert Frees(ops[k + 1], key, ops[i].info);
    } else if forall k :: 0 < k < j ==> !Frees(ops[k], key, ops[0].info) {
      assert m1.tfLocks[key] == ops[0].info;
      forall k | 0 <= k < j - 1 ensures !Frees(rest[k], key, m1.tfLocks[key]) {
        assert rest[k] == ops[k + 1];
      }
      NotTakenWhileHeld(order, m1, rest, key, j - 1);
    }
  }
}

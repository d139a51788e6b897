/** The sequential meaning of a log: a plain map plus the transactions staged but not decided. */
module Reference {
  import opened Protocol

  datatype KvState = KvState(kv: map<Key, Value>, pending: map<TxId, seq<TxOp>>)

  const EMPTY := KvState(map[], map[])

  function ApplyOp(kv: map<Key, Value>, op: TxOp): map<Key, Value> {
    match op
    case Put(k, v) => kv[k := v]
    case Remove(k) => kv - {k}
  }

  function ApplyOps(kv: map<Key, Value>, ops: seq<TxOp>): map<Key, Value> {
    if ops == [] then kv else ApplyOp(ApplyOps(kv, ops[..|ops| - 1]), ops[|ops| - 1])
  }

  function Apply(st: KvState, cmd: Command): KvState {
    match cmd
    case Set(k, v) => st.(kv := st.kv[k := v])
    case Delete(k) => st.(kv := st.kv - {k})
    case BeginTx(x, ops) => st.(pending := st.pending[x := ops])
    case DecideTx(x, decision) =>
      if x !in st.pending then st
      else KvState(if decision == Commit then ApplyOps(st.kv, st.pending[x]) else st.kv, st.pending - {x})
    case _ => st
  }

  function Replay(st: KvState, log: seq<LogEntry>): KvState {
    if log == [] then st else Apply(Replay(st, log[..|log| - 1]), log[|log| - 1].command)
  }

  /** Replaying in two batches is replaying at once. */
  lemma {:induction false} ReplayBatches(st: KvState, a: seq<LogEntry>, b: seq<LogEntry>)
    ensures Replay(st, a + b) == Replay(Replay(st, a), b)
  {
    if b == [] {
      assert a + b == a;
    } else {
      var n := |b| - 1;
      ReplayBatches(st, a, b[..n]);
      assert (a + b)[..|a + b| - 1] == a + b[..n];
    }
  }

  lemma ReplayStep(st: KvState, log: seq<LogEntry>, k: nat)
    requires k < |log|
    ensures Replay(st, log[..k + 1]) == Apply(Replay(st, log[..k]), log[k].command)
  {
    assert log[..k + 1][..k] == log[..k];
  }

  // ---------- the outcome of a transaction ----------

  predicate Begins(e: LogEntry, x: TxId) { e.command.BeginTx? && e.command.txId == x }

  predicate Decides(e: LogEntry, x: TxId) { e.command.DecideTx? && e.command.txId == x }

  /** Between a BeginTx and the next entry about the same transaction, its operations stay staged. */
  lemma {:induction false} StagedUntilDecided(st: KvState, log: seq<LogEntry>, x: TxId, i: nat, j: nat)
    requires i < j <= |log| && Begins(log[i], x)
    requires forall m | i < m < j :: !Begins(log[m], x) && !Decides(log[m], x)
    ensures x in Replay(st, log[..j]).pending
    ensures Replay(st, log[..j]).pending[x] == log[i].command.ops
    decreases j
  {
    ReplayStep(st, log, j - 1);
    if i < j - 1 {
      StagedUntilDecided(st, log, x, i, j - 1);
      assert !Begins(log[j - 1], x) && !Decides(log[j - 1], x);
    }
  }

  /** After a decision, and until the transaction is begun again, nothing about it is staged. */
  lemma {:induction false} ClosedAfterDecision(st: KvState, log: seq<LogEntry>, x: TxId, j: nat, m: nat)
    requires j < m <= |log| && Decides(log[j], x)
    requires forall k | j < k < m :: !Begins(log[k], x)
    ensures x !in Replay(st, log[..m]).pending
    decreases m
  {
    ReplayStep(st, log, m - 1);
    if j < m - 1 {
      ClosedAfterDecision(st, log, x, j, m - 1);
      assert !Begins(log[m - 1], x);
    }
  }

  /** A decision about a transaction that is decided already, and not begun again, changes nothing. */
  lemma LaterDecisionIgnored(st: KvState, log: seq<LogEntry>, x: TxId, j: nat, m: nat)
    requires j < m < |log| && Decides(log[j], x) && Decides(log[m], x)
    requires NotBegunBetween(log, x, j, m)
    ensures Replay(st, log[..m + 1]) == Replay(st, log[..m])
  {
    ClosedAfterDecision(st, log, x, j, m);
    ReplayStep(st, log, m);
  }

  predicate NotBegunBetween(log: seq<LogEntry>, x: TxId, j: nat, m: nat)
    requires j <= m < |log|
  {
    forall k | j < k < m :: !Begins(log[k], x)
  }

  /** The first DecideTx after the latest BeginTx fixes the outcome, whatever follows: it applies all of
      the staged operations or none and unstages them, and every later DecideTx before a new BeginTx
      changes nothing. */
  lemma FirstDecisionWins(st: KvState, log: seq<LogEntry>, x: TxId, i: nat, j: nat)
    requires i < j < |log| && Begins(log[i], x) && Decides(log[j], x)
    requires forall k | i < k < j :: !Begins(log[k], x) && !Decides(log[k], x)
    ensures var before, after := Replay(st, log[..j]), Replay(st, log[..j + 1]);
            && after.kv == (if log[j].command.decision == Commit then ApplyOps(before.kv, log[i].command.ops)
                            else before.kv)
            && after.pending == before.pending - {x} && x in before.pending
    ensures forall m | j < m < |log| && Decides(log[m], x) && NotBegunBetween(log, x, j, m) ::
              Replay(st, log[..m + 1]) == Replay(st, log[..m])
  {
    StagedUntilDecided(st, log, x, i, j);
    ReplayStep(st, log, j);
    forall m | j < m < |log| && Decides(log[m], x) && NotBegunBetween(log, x, j, m)
      ensures Replay(st, log[..m + 1]) == Replay(st, log[..m])
    {
      LaterDecisionIgnored(st, log, x, j, m);
    }
  }

  // ---------- the oracle object ----------

  /** `ReferenceModel`: applies entries in strict index order. */
  class ReferenceModel {
    var state: map<Key, Value>
    var pending: map<TxId, seq<TxOp>>
    var nextIndex: nat

    ghost function View(): KvState
      reads this
    {
      KvState(state, pending)
    }

    constructor ()
      ensures View() == EMPTY && nextIndex == 1
    {
      state, pending, nextIndex := map[], map[], 1;
    }

    /** Out-of-order and repeated indices are refused without effect. */
    method ApplyAt(index: nat, command: Command) returns (applied: bool)
      modifies this
      ensures applied == (index == old(nextIndex))
      ensures View() == if applied then Apply(old(View()), command) else old(View())
      ensures nextIndex == if applied then old(nextIndex) + 1 else old(nextIndex)
    {
      if index < nextIndex || index > nextIndex {
        return false;
      }
      nextIndex := nextIndex + 1;
      match command {
        case Set(k, v) => state := state[k := v];
        case Delete(k) => state := state - {k};
        case BeginTx(x, ops) => pending := pending[x := ops];
        case DecideTx(x, decision) =>
          if x in pending {
            var ops := pending[x];
            pending := pending - {x};
            if decision == Commit {
              ghost var base := state;
              for i := 0 to |ops|
                invariant state == ApplyOps(base, ops[..i])
                invariant pending == old(pending) - {x} && nextIndex == old(nextIndex) + 1
              {
                assert ops[..i + 1][..i] == ops[..i];
                match ops[i]
                case Put(k, v) => state := state[k := v];
                case Remove(k) => state := state - {k};
              }
              assert ops[..|ops|] == ops;
            }
          }
        case _ =>
      }
      applied := true;
    }

    /** `replay_from_node`: the model rebuilt from a node's log up to its commit index. */
    method ReplayFromNode(log: seq<LogEntry>, commitIndex: nat) returns (applied: nat)
      modifies this
      ensures applied == if commitIndex <= |log| then commitIndex else |log|
      ensures View() == Replay(EMPTY, log[..applied])
      ensures nextIndex == applied + 1
    {
      state, pending, nextIndex := map[], map[], 1;
      applied := 0;
      while nextIndex <= commitIndex
        invariant applied <= |log| && applied <= commitIndex && nextIndex == applied + 1
        invariant View() == Replay(EMPTY, log[..applied])
        decreases commitIndex + 1 - nextIndex
      {
        if nextIndex > |log| {
          return;
        }
        ReplayStep(EMPTY, log, applied);
        var ok := ApplyAt(nextIndex, log[nextIndex - 1].command);
        applied := applied + 1;
      }
    }
  }
}

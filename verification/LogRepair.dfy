/** The conflict resolution of AppendEntries as a closed form, and what follows from it. */
module LogRepair {
  import opened Protocol
  import opened Reference
  import opened Steps

  /** The entries follow position `prev` without a gap, as every leader sends them. */
  ghost predicate Contiguous(entries: seq<LogEntry>, prev: nat) {
    forall j | 0 <= j < |entries| :: entries[j].index == prev + 1 + j
  }

  /** The first `j` entries have the terms the log already has there. */
  ghost predicate AgreesFor(log: seq<LogEntry>, entries: seq<LogEntry>, prev: nat, j: nat) {
    && j <= |entries| && prev + j <= |log|
    && forall i | 0 <= i < j :: log[prev + i].term == entries[i].term
  }

  /** Entry `j` is the first that is missing from the log or has another term there. */
  ghost predicate FirstNew(log: seq<LogEntry>, entries: seq<LogEntry>, prev: nat, j: nat) {
    && AgreesFor(log, entries, prev, j) && j < |entries|
    && (prev + j < |log| ==> log[prev + j].term != entries[j].term)
  }

  /** The loop leaves an agreeing log alone, and otherwise cuts exactly at the first new entry. */
  lemma {:induction false} ResolveForm(log: seq<LogEntry>, entries: seq<LogEntry>, prev: nat) returns (j: nat)
    requires Contiguous(entries, prev) && prev <= |log|
    ensures AgreesFor(log, entries, prev, j)
    ensures j < |entries| ==> FirstNew(log, entries, prev, j)
    ensures Resolve(log, entries) == if j == |entries| then log else log[..prev + j] + entries[j..]
    decreases |entries|
  {
    if entries == [] {
      j := 0;
    } else {
      var m := |entries| - 1;
      var init, e := entries[..m], entries[m];
      j := ResolveForm(log, init, prev);
      if j < m {
        PushLast(log[..prev + j], entries, j);
      } else if prev + m < |log| && log[prev + m].term == e.term {
        j := m + 1;
      } else {
        assert entries[m..] == [e];
      }
    }
  }

  lemma PushLast(front: seq<LogEntry>, entries: seq<LogEntry>, j: nat)
    requires j < |entries|
    ensures (front + entries[..|entries| - 1][j..]) + [entries[|entries| - 1]] == front + entries[j..]
  {
    assert entries[..|entries| - 1][j..] + [entries[|entries| - 1]] == entries[j..];
  }

  /** Nothing at or before the first new entry is lost, and the message ends up in the log. */
  lemma ResolveContains(log: seq<LogEntry>, entries: seq<LogEntry>, prev: nat)
    requires Contiguous(entries, prev) && prev <= |log|
    ensures prev + |entries| <= |Resolve(log, entries)|
    ensures Resolve(log, entries)[..prev] == log[..prev]
    ensures forall i | 0 <= i < |entries| :: Resolve(log, entries)[prev + i].term == entries[i].term
    ensures AgreesFor(log, entries, prev, |entries|) ==> Resolve(log, entries) == log
    ensures Resolve(log, entries) != log ==> |Resolve(log, entries)| == prev + |entries|
  {
    var j := ResolveForm(log, entries, prev);
  }

  /** Resolving the same entries again changes nothing. */
  lemma ResolveTwice(log: seq<LogEntry>, entries: seq<LogEntry>, prev: nat)
    requires Contiguous(entries, prev) && prev <= |log|
    ensures Resolve(Resolve(log, entries), entries) == Resolve(log, entries)
    ensures Written(Resolve(log, entries), entries) == []
  {
    ResolveContains(log, entries, prev);
    var once := Resolve(log, entries);
    assert AgreesFor(once, entries, prev, |entries|);
    AgreeingWritesNothing(once, entries, prev);
  }

  lemma {:induction false} AgreeingWritesNothing(log: seq<LogEntry>, entries: seq<LogEntry>, prev: nat)
    requires Contiguous(entries, prev) && AgreesFor(log, entries, prev, |entries|)
    ensures Resolve(log, entries) == log && Written(log, entries) == []
  {
    if entries != [] {
      AgreeingWritesNothing(log, entries[..|entries| - 1], prev);
    }
  }

  /** What the loop writes to disk is the part of the message from the first new entry on. */
  lemma {:induction false} WrittenForm(log: seq<LogEntry>, entries: seq<LogEntry>, prev: nat, j: nat)
    requires Contiguous(entries, prev) && AgreesFor(log, entries, prev, j)
    requires j < |entries| ==> FirstNew(log, entries, prev, j)
    ensures Written(log, entries) == entries[j..]
    decreases |entries|
  {
    if j == |entries| {
      AgreeingWritesNothing(log, entries, prev);
    } else {
      var m := |entries| - 1;
      var init := entries[..m];
      if j < m {
        WrittenForm(log, init, prev, j);
        LongAfterCut(log, init, prev, j);
        assert init[j..] + [entries[m]] == entries[j..];
      } else {
        AgreeingWritesNothing(log, init, prev);
        assert entries[m..] == [entries[m]];
      }
    }
  }

  lemma LongAfterCut(log: seq<LogEntry>, entries: seq<LogEntry>, prev: nat, j: nat)
    requires Contiguous(entries, prev) && j < |entries| && FirstNew(log, entries, prev, j)
    ensures |Resolve(log, entries)| == prev + |entries|
  {
    var k := ResolveForm(log, entries, prev);
    assert k <= j;
  }

  /** The write-ahead log, equal to the log before, stays equal exactly when no entry conflicted:
      an overwritten entry is never removed from disk. */
  lemma WalTracksLogIffNoConflict(log: seq<LogEntry>, entries: seq<LogEntry>, prev: nat)
    requires Contiguous(entries, prev) && prev <= |log|
    ensures log + Written(log, entries) == Resolve(log, entries)
        <==> forall i | 0 <= i < |entries| && prev + i < |log| :: log[prev + i].term == entries[i].term
  {
    var j := ResolveForm(log, entries, prev);
    WrittenForm(log, entries, prev, j);
    if j < |entries| {
      if prev + j < |log| {
        assert |log + entries[j..]| > |log[..prev + j] + entries[j..]|;
      } else {
        assert log[..prev + j] == log;
      }
    } else {
      assert log + [] == log;
    }
  }

  // ---------- applying, when the log holds no membership change ----------

  ghost predicate NoConfigChange(log: seq<LogEntry>) {
    forall k | 0 <= k < |log| :: !log[k].command.InstallConfiguration?
  }

  /** `apply_logs` brings the state machine to the meaning of the committed prefix, in whatever
      batches the commit index advanced. */
  lemma {:induction false} ApplyLogsForm(n: Node)
    requires NoConfigChange(n.log)
    requires n.applied <= n.commit <= |n.log|
    requires n.sm == Replay(EMPTY, n.log[..n.applied])
    ensures ApplyLogs(n) == n.(applied := n.commit, sm := Replay(EMPTY, n.log[..n.commit]))
    decreases n.commit - n.applied
  {
    if n.applied < n.commit {
      ReplayStep(EMPTY, n.log, n.applied);
      ApplyLogsForm(ApplyOne(n));
    }
  }

  /** On a follower, applying never touches the log, the term, the vote or the commit index. */
  lemma {:induction false} ApplyLogsAsFollower(n: Node)
    requires n.role == Follower
    ensures var n' := ApplyLogs(n);
            && n'.term == n.term && n'.vote == n.vote && n'.role == n.role
            && n'.log == n.log && n'.wal == n.wal && n'.commit == n.commit
    decreases n.commit - n.applied
  {
    if n.applied < n.commit && n.applied < |n.log| {
      ApplyLogsAsFollower(ApplyOne(n));
    }
  }

  lemma {:induction false} ApplyLogsTwice(n: Node)
    ensures ApplyLogs(ApplyLogs(n)) == ApplyLogs(n)
    decreases n.commit - n.applied
  {
    if n.applied < n.commit && n.applied < |n.log| {
      ApplyLogsTwice(ApplyOne(n));
    }
  }

  lemma FollowCommitTwice(n: Node, leaderCommit: nat)
    requires n.role == Follower
    ensures var n' := FollowCommit(n, leaderCommit);
            && FollowCommit(n', leaderCommit) == n'
            && n'.term == n.term && n'.role == Follower && n'.log == n.log && n'.wal == n.wal
  {
    if leaderCommit > n.commit {
      var n1 := n.(commit := if leaderCommit <= |n.log| then leaderCommit else |n.log|);
      ApplyLogsAsFollower(n1);
      ApplyLogsTwice(n1);
      var n' := ApplyLogs(n1);
      assert n'.(commit := n'.commit) == n';
    }
  }

  /** An accepted message, delivered again to the node it was accepted by. */
  lemma AcceptedTwice(n1: Node, args: AppendArgs, n': Node)
    requires Contiguous(args.entries, args.prevIndex)
    requires n1.role == Follower && n1.term == args.term && Consistent(n1, args)
    requires n' == FollowCommit(n1.(log := Resolve(n1.log, args.entries),
                                    wal := n1.wal + Written(n1.log, args.entries)), args.commit)
    ensures HandleAppend(n', args) == (n', AppendReply(args.term, true))
  {
    var log' := Resolve(n1.log, args.entries);
    FollowCommitTwice(n1.(log := log', wal := n1.wal + Written(n1.log, args.entries)), args.commit);
    ResolveTwice(n1.log, args.entries, args.prevIndex);
    ResolveContains(n1.log, args.entries, args.prevIndex);
    assert args.prevIndex > 0 ==> log'[args.prevIndex - 1] == log'[..args.prevIndex][args.prevIndex - 1];
    assert Consistent(n', args);
    assert n'.wal + [] == n'.wal;
    assert n'.(role := Follower) == n';
    assert n'.(log := log', wal := n'.wal + Written(n'.log, args.entries)) == n';
  }

  /** Delivering the same AppendEntries twice leaves everything as after the first delivery. */
  lemma AppendTwice(n: Node, args: AppendArgs)
    requires Contiguous(args.entries, args.prevIndex)
    ensures HandleAppend(HandleAppend(n, args).0, args) == HandleAppend(n, args)
  {
    if args.term < n.term || (args.term == n.term && n.role == Leader) {
    } else {
      var n1 := (if args.term > n.term then AdoptTerm(n, args.term) else n).(role := Follower);
      if Consistent(n1, args) {
        AcceptedTwice(n1, args, HandleAppend(n, args).0);
      }
    }
  }
}

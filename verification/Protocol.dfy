/** The command, log and configuration types every other module speaks about. */
module Protocol {
  type Id = string
  type Key = string
  type Value = string
  type TxId = string

  datatype Option<+T> = None | Some(value: T)

  datatype TxOp = Put(key: Key, value: Value) | Remove(key: Key)

  datatype TxDecision = Commit | Abort

  datatype ServerId = ServerId(nodeId: Id, addr: Id)

  /** `Joint` is the intermediate state of a membership change. */
  datatype Configuration =
    | Simple(servers: seq<ServerId>)
    | Joint(before: seq<ServerId>, after: seq<ServerId>)

  datatype Command =
    | Set(key: Key, value: Value)
    | Get(key: Key)
    | Delete(key: Key)
    | Compact
    | AbortTx(txId: TxId)
    | BeginTx(txId: TxId, ops: seq<TxOp>)
    | DecideTx(txId: TxId, decision: TxDecision)
    | AddNode(server: ServerId)
    | RemoveNode(nodeId: Id)
    | InstallConfiguration(config: Configuration)

  /** Positions are 0-based in a `seq<LogEntry>`; `index` is the 1-based Raft index. */
  datatype LogEntry = LogEntry(term: nat, index: nat, command: Command)

  /** The ids of a server list. */
  function Ids(servers: seq<ServerId>): set<Id> {
    set s | s in servers :: s.nodeId
  }

  ghost predicate DistinctIds(servers: seq<ServerId>) {
    forall i, j | 0 <= i < j < |servers| :: servers[i].nodeId != servers[j].nodeId
  }

  /** With distinct ids, a list has as many ids as elements. */
  lemma {:induction false} DistinctIdsCount(servers: seq<ServerId>)
    requires DistinctIds(servers)
    ensures |Ids(servers)| == |servers|
  {
    if servers != [] {
      var n := |servers| - 1;
      var init := servers[..n];
      DistinctIdsCount(init);
      assert servers == init + [servers[n]];
      assert Ids(servers) == Ids(init) + {servers[n].nodeId};
      assert servers[n].nodeId !in Ids(init);
    }
  }

  /** The servers a configuration replicates to: `after` adds what `before` lacks. */
  function AllServers(config: Configuration): (r: seq<ServerId>) {
    match config
    case Simple(servers) => servers
    case Joint(before, after) => Combine(before, after)
  }

  function Combine(before: seq<ServerId>, after: seq<ServerId>): (r: seq<ServerId>) {
    if after == [] then before
    else
      var n := |after| - 1;
      var combined := Combine(before, after[..n]);
      if after[n].nodeId in Ids(combined) then combined else combined + [after[n]]
  }

  /** The union covers exactly both server sets, keeps `before` as a prefix and never repeats an id. */
  lemma {:induction false} CombineIsUnion(before: seq<ServerId>, after: seq<ServerId>)
    ensures Ids(Combine(before, after)) == Ids(before) + Ids(after)
    ensures before <= Combine(before, after)
    ensures DistinctIds(before) ==> DistinctIds(Combine(before, after))
  {
    if after != [] {
      var n := |after| - 1;
      CombineIsUnion(before, after[..n]);
      var combined := Combine(before, after[..n]);
      assert after == after[..n] + [after[n]];
      assert Ids(after) == Ids(after[..n]) + {after[n].nodeId};
      PushServer(combined, after[n]);
    }
  }

  /** The union takes servers from the two lists and changes none of them, addresses included: nothing else is
      in it, and of the servers of `after` with a new id the first one of that id is. */
  lemma {:induction false} CombineServers(before: seq<ServerId>, after: seq<ServerId>)
    ensures forall s | s in Combine(before, after) :: s in before || s in after
    ensures forall s | s in before :: s in Combine(before, after)
    ensures forall i | 0 <= i < |after| && NewAt(before, after, i) :: after[i] in Combine(before, after)
  {
    if after != [] {
      var n := |after| - 1;
      var init := after[..n];
      CombineServers(before, init);
      CombineIsUnion(before, init);
      assert after == init + [after[n]];
      forall i | 0 <= i < |after| && NewAt(before, after, i) ensures after[i] in Combine(before, after) {
        if i < n {
          assert NewAt(before, init, i) && init[i] == after[i];
        } else {
          NotYetThere(before, after);
        }
      }
    }
  }

  /** Server `i` of `after` is the first one of an id that `before` does not have. */
  ghost predicate NewAt(before: seq<ServerId>, after: seq<ServerId>, i: nat)
    requires i < |after|
  {
    && (forall s | s in before :: s.nodeId != after[i].nodeId)
    && (forall j | 0 <= j < i :: after[j].nodeId != after[i].nodeId)
  }

  lemma NotYetThere(before: seq<ServerId>, after: seq<ServerId>)
    requires after != [] && NewAt(before, after, |after| - 1)
    ensures after[|after| - 1].nodeId !in Ids(Combine(before, after[..|after| - 1]))
  {
    var n := |after| - 1;
    CombineIsUnion(before, after[..n]);
    forall s | s in after[..n] ensures s.nodeId != after[n].nodeId {
      var j :| 0 <= j < n && after[..n][j] == s;
      assert after[j] == s;
    }
  }

  lemma PushServer(servers: seq<ServerId>, s: ServerId)
    ensures Ids(servers + [s]) == Ids(servers) + {s.nodeId}
    ensures DistinctIds(servers) && s.nodeId !in Ids(servers) ==> DistinctIds(servers + [s])
  {
    assert forall i | 0 <= i < |servers| :: servers[i].nodeId in Ids(servers);
  }

  /** `Configuration::all_servers`: the loop pushes each new server that is not there yet. */
  method ComputeAllServers(config: Configuration) returns (r: seq<ServerId>)
    ensures r == AllServers(config)
    ensures Ids(r) == match config case Simple(s) => Ids(s) case Joint(b, a) => Ids(b) + Ids(a)
  {
    match config
    case Simple(servers) => r := servers;
    case Joint(before, after) =>
      r := before;
      for i := 0 to |after|
        invariant r == Combine(before, after[..i])
      {
        assert after[..i + 1][..i] == after[..i];
        var present := exists x :: x in r && x.nodeId == after[i].nodeId;
        if !present {
          r := r + [after[i]];
        }
      }
      assert after[..|after|] == after;
      CombineIsUnion(before, after);
  }
}

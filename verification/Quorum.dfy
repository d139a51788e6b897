/** Majority and dual-majority counting, and the search for the highest quorum index. */
module Quorum {
  import opened Protocol

  /** What the leader believes about one server: its own log length, or the recorded match index. */
  function IndexOf(matchIndex: map<Id, nat>, self: Id, selfIndex: nat, id: Id): nat {
    if id == self then selfIndex else if id in matchIndex then matchIndex[id] else 0
  }

  /** Positions of `servers` known to hold `index`. */
  function Holders(servers: seq<ServerId>, matchIndex: map<Id, nat>, self: Id, selfIndex: nat, index: nat): set<nat> {
    set p: nat | p < |servers| && IndexOf(matchIndex, self, selfIndex, servers[p].nodeId) >= index
  }

  predicate MajorityHolds(servers: seq<ServerId>, matchIndex: map<Id, nat>, self: Id, selfIndex: nat, index: nat) {
    |Holders(servers, matchIndex, self, selfIndex, index)| * 2 > |servers|
  }

  predicate Reached(config: Configuration, matchIndex: map<Id, nat>, self: Id, selfIndex: nat, index: nat) {
    match config
    case Simple(servers) => MajorityHolds(servers, matchIndex, self, selfIndex, index)
    case Joint(before, after) =>
      && MajorityHolds(before, matchIndex, self, selfIndex, index)
      && MajorityHolds(after, matchIndex, self, selfIndex, index)
  }

  /** Taking one more server into account. */
  lemma HoldersStep(servers: seq<ServerId>, matchIndex: map<Id, nat>, self: Id, selfIndex: nat, index: nat, p: nat)
    requires p < |servers|
    ensures Holders(servers[..p + 1], matchIndex, self, selfIndex, index)
         == Holders(servers[..p], matchIndex, self, selfIndex, index)
            + (if IndexOf(matchIndex, self, selfIndex, servers[p].nodeId) >= index then {p} else {})
  {
    assert servers[..p + 1] == servers[..p] + [servers[p]];
  }

  /** The counting loop of `config_quorum_reached` over one server list. */
  method CountMajority(servers: seq<ServerId>, matchIndex: map<Id, nat>, self: Id, selfIndex: nat, index: nat)
    returns (ok: bool)
    ensures ok == MajorityHolds(servers, matchIndex, self, selfIndex, index)
  {
    var count := 0;
    for p := 0 to |servers|
      invariant count == |Holders(servers[..p], matchIndex, self, selfIndex, index)|
    {
      HoldersStep(servers, matchIndex, self, selfIndex, index, p);
      var idx := if servers[p].nodeId == self then selfIndex
                 else if servers[p].nodeId in matchIndex then matchIndex[servers[p].nodeId] else 0;
      if idx >= index {
        count := count + 1;
      }
    }
    assert servers[..|servers|] == servers;
    ok := count > |servers| / 2;
  }

  method ComputeReached(config: Configuration, matchIndex: map<Id, nat>, self: Id, selfIndex: nat, index: nat)
    returns (ok: bool)
    ensures ok == Reached(config, matchIndex, self, selfIndex, index)
  {
    match config
    case Simple(servers) => ok := CountMajority(servers, matchIndex, self, selfIndex, index);
    case Joint(before, after) =>
      var oldOk := CountMajority(before, matchIndex, self, selfIndex, index);
      var newOk := CountMajority(after, matchIndex, self, selfIndex, index);
      ok := oldOk && newOk;
  }

  lemma SubsetSize<T>(a: set<T>, b: set<T>)
    requires a <= b
    ensures |a| <= |b|
  {
    assert b == a + (b - a);
    assert |b| == |a| + |b - a|;
  }

  /** A quorum for an index is a quorum for every lower index. */
  lemma ReachedDownward(config: Configuration, matchIndex: map<Id, nat>, self: Id, selfIndex: nat, low: nat, high: nat)
    requires low <= high
    requires Reached(config, matchIndex, self, selfIndex, high)
    ensures Reached(config, matchIndex, self, selfIndex, low)
  {
    match config
    case Simple(servers) =>
      SubsetSize(Holders(servers, matchIndex, self, selfIndex, high),
                 Holders(servers, matchIndex, self, selfIndex, low));
    case Joint(before, after) =>
      SubsetSize(Holders(before, matchIndex, self, selfIndex, high), Holders(before, matchIndex, self, selfIndex, low));
      SubsetSize(Holders(after, matchIndex, self, selfIndex, high), Holders(after, matchIndex, self, selfIndex, low));
  }

  /** The greatest index up to `bound` with a quorum, 0 if there is none. */
  function Highest(config: Configuration, matchIndex: map<Id, nat>, self: Id, selfIndex: nat, bound: nat): (r: nat)
    ensures r <= bound
    ensures r > 0 ==> Reached(config, matchIndex, self, selfIndex, r)
    ensures forall k | r < k <= bound :: !Reached(config, matchIndex, self, selfIndex, k)
  {
    if bound == 0 then 0
    else if Reached(config, matchIndex, self, selfIndex, bound) then bound
    else Highest(config, matchIndex, self, selfIndex, bound - 1)
  }

  /** `config_quorum_reached_index`: the binary search terminates on the greatest quorum index. */
  method SearchHighest(config: Configuration, matchIndex: map<Id, nat>, self: Id, selfIndex: nat) returns (best: nat)
    ensures best <= selfIndex
    ensures best > 0 ==> Reached(config, matchIndex, self, selfIndex, best)
    ensures forall k | best < k <= selfIndex :: !Reached(config, matchIndex, self, selfIndex, k)
    ensures best == Highest(config, matchIndex, self, selfIndex, selfIndex)
  {
    var lo, hi := 1, selfIndex;
    best := 0;
    while lo <= hi
      invariant 1 <= lo && best < lo && lo - 1 <= selfIndex && best <= hi <= selfIndex
      invariant lo <= hi ==> best == lo - 1
      invariant best > 0 ==> Reached(config, matchIndex, self, selfIndex, best)
      invariant forall k | hi < k <= selfIndex :: !Reached(config, matchIndex, self, selfIndex, k)
      invariant hi < lo ==> hi == best
      decreases hi - lo + 1
    {
      var mid := (lo + hi) / 2;
      var ok := ComputeReached(config, matchIndex, self, selfIndex, mid);
      if ok {
        best := mid;
        if mid == hi {
          break;
        }
        lo := mid + 1;
      } else {
        forall k | mid <= k <= selfIndex
          ensures !Reached(config, matchIndex, self, selfIndex, k)
        {
          if Reached(config, matchIndex, self, selfIndex, k) {
            ReachedDownward(config, matchIndex, self, selfIndex, mid, k);
          }
        }
        if mid == 0 {
          break;
        }
        hi := mid - 1;
      }
    }
  }

  /** Under `Joint` the search answers the smaller of the two `Simple` answers. */
  lemma JointIsMinimum(before: seq<ServerId>, after: seq<ServerId>, matchIndex: map<Id, nat>, self: Id, selfIndex: nat)
    ensures var b := Highest(Simple(before), matchIndex, self, selfIndex, selfIndex);
            var a := Highest(Simple(after), matchIndex, self, selfIndex, selfIndex);
            Highest(Joint(before, after), matchIndex, self, selfIndex, selfIndex) == if b <= a then b else a
  {
    var b := Highest(Simple(before), matchIndex, self, selfIndex, selfIndex);
    var a := Highest(Simple(after), matchIndex, self, selfIndex, selfIndex);
    var m := if b <= a then b else a;
    var j := Highest(Joint(before, after), matchIndex, self, selfIndex, selfIndex);
    if m > 0 {
      ReachedDownward(Simple(before), matchIndex, self, selfIndex, m, b);
      ReachedDownward(Simple(after), matchIndex, self, selfIndex, m, a);
      assert Reached(Joint(before, after), matchIndex, self, selfIndex, m);
    }
    if j > m {
      assert Reached(Simple(before), matchIndex, self, selfIndex, j);
      assert Reached(Simple(after), matchIndex, self, selfIndex, j);
    }
  }

  // ---------- quorums as sets of ids ----------

  predicate Majority(quorum: set<Id>, members: set<Id>) {
    quorum <= members && |quorum| * 2 > |members|
  }

  /** Two majorities of member sets that differ by at most one server share a server. */
  lemma MajoritiesMeet(q1: set<Id>, m1: set<Id>, q2: set<Id>, m2: set<Id>) returns (common: Id)
    requires Majority(q1, m1) && Majority(q2, m2)
    requires m1 <= m2 && |m2| <= |m1| + 1
    ensures common in q1 && common in q2
  {
    if q1 * q2 == {} {
      assert |q1 + q2| == |q1| + |q2|;
      SubsetSize(q1 + q2, m2);
      assert false;
    }
    common :| common in q1 * q2;
  }

  /** The least size of a majority. */
  function Least(members: set<Id>): nat { |members| / 2 + 1 }

  lemma Choose(s: set<Id>, k: nat) returns (part: set<Id>)
    requires k <= |s|
    ensures part <= s && |part| == k
    decreases k
  {
    part := {};
    if k > 0 {
      var rest := Choose(s, k - 1);
      assert s == rest + (s - rest);
      assert |s| == |rest| + |s - rest|;
      var x :| x in s - rest;
      part := rest + {x};
    }
  }

  /** Two member sets whose least majorities fit side by side have majorities without a common server. */
  lemma DisjointMajorities(m1: set<Id>, m2: set<Id>) returns (q1: set<Id>, q2: set<Id>)
    requires m1 != {} && m2 != {} && Least(m1) + Least(m2) <= |m1 + m2|
    ensures Majority(q1, m1) && Majority(q2, m2) && q1 * q2 == {}
  {
    var only, both := m1 - m2, m1 * m2;
    assert m1 == only + both && |m1| == |only| + |both|;
    assert m1 + m2 == only + m2 && |m1 + m2| == |only| + |m2|;
    if |only| >= Least(m1) {
      q1 := Choose(only, Least(m1));
      q2 := m2;
    } else {
      var shared := Choose(both, Least(m1) - |only|);
      q1 := only + shared;
      q2 := m2 - shared;
      assert |q1| == |only| + |shared| && |m2| == |q2| + |shared| by {
        assert m2 == q2 + shared;
      }
    }
  }

  /** Exactly when every majority of one member set meets every majority of another. */
  lemma MajoritiesMeetIff(m1: set<Id>, m2: set<Id>)
    ensures (forall q1, q2 :: Majority(q1, m1) && Majority(q2, m2) ==> q1 * q2 != {})
        <==> m1 == {} || m2 == {} || Least(m1) + Least(m2) > |m1 + m2|
  {
    if m1 != {} && m2 != {} && Least(m1) + Least(m2) <= |m1 + m2| {
      var q1, q2 := DisjointMajorities(m1, m2);
    } else {
      forall q1, q2 | Majority(q1, m1) && Majority(q2, m2) ensures q1 * q2 != {} {
        if q1 * q2 == {} {
          assert |q1 + q2| == |q1| + |q2|;
          SubsetSize(q1 + q2, m1 + m2);
        }
      }
    }
  }

  /** Ids of the servers the leader counts at `index`. */
  function Counted(servers: seq<ServerId>, matchIndex: map<Id, nat>, self: Id, selfIndex: nat, index: nat): set<Id> {
    set s | s in servers && IndexOf(matchIndex, self, selfIndex, s.nodeId) >= index :: s.nodeId
  }

  /** With distinct ids, counting list positions is counting servers. */
  lemma CountedAreHolders(servers: seq<ServerId>, matchIndex: map<Id, nat>, self: Id, selfIndex: nat, index: nat)
    requires DistinctIds(servers)
    ensures |Counted(servers, matchIndex, self, selfIndex, index)|
         == |Holders(servers, matchIndex, self, selfIndex, index)|
  {
    IdsAtCount(servers, Holders(servers, matchIndex, self, selfIndex, index));
    assert Counted(servers, matchIndex, self, selfIndex, index)
        == IdsAt(servers, Holders(servers, matchIndex, self, selfIndex, index));
  }

  function IdsAt(servers: seq<ServerId>, positions: set<nat>): set<Id> {
    set p | p in positions && p < |servers| :: servers[p].nodeId
  }

  lemma {:induction false} IdsAtCount(servers: seq<ServerId>, positions: set<nat>)
    requires DistinctIds(servers)
    requires forall p | p in positions :: p < |servers|
    ensures |IdsAt(servers, positions)| == |positions|
    decreases |positions|
  {
    if positions != {} {
      var p :| p in positions;
      var rest := positions - {p};
      IdsAtCount(servers, rest);
      assert IdsAt(servers, positions) == IdsAt(servers, rest) + {servers[p].nodeId};
      assert servers[p].nodeId !in IdsAt(servers, rest);
    }
  }

  /** What the loop accepts is a majority of the servers, as a set of ids. */
  lemma ReachedIsMajority(servers: seq<ServerId>, matchIndex: map<Id, nat>, self: Id, selfIndex: nat, index: nat)
    requires DistinctIds(servers)
    ensures MajorityHolds(servers, matchIndex, self, selfIndex, index)
        <==> Majority(Counted(servers, matchIndex, self, selfIndex, index), Ids(servers))
  {
    CountedAreHolders(servers, matchIndex, self, selfIndex, index);
    DistinctIdsCount(servers);
  }
}

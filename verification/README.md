# oxide-kv: a verified model of its Raft cluster, quorum arithmetic and store

This project models the core of oxide-kv, a replicated key-value store, and proves what the system is
for: that a cluster of Raft nodes never disagrees about what is committed, that the log-structured store
under each node means the same as a plain map through flushes, compactions, crashes and restarts, and
that two-phase commit decides what its rounds promise.

`dafny verify dfyconfig.toml` checks everything.

## How the model is built

| file | content |
|---|---|
| `Protocol.dfy`, `Quorum.dfy` | commands, log entries, configurations; counting majorities and the binary search for the commit index |
| `Reference.dfy` | the sequential meaning of a log (`Replay`), and the oracle object that computes it |
| `Steps.dfy` | each handler of a node as a function on the node's state |
| `Handlers.dfy` | what each handler answers, and when, in elementary terms: every case, both directions, and what stays |
| `RaftNode.dfy` | the node and its storage as objects with loops and field updates; every method is proved equal to its step function |
| `Cluster.dfy` | the whole cluster as a step system over those step functions; messages are never removed, so they may be lost, delayed, reordered and repeated |
| `Invariant.dfy`, `Evolution.dfy`, `Preserve.dfy`, `Induction.dfy` | the inductive invariant and its preservation by all seventeen kinds of step |
| `Safety.dfy` | the theorems over whole runs |
| `Hypotheses.dfy`, `Example.dfy` | conditions on single steps from which the assumption on match indices follows, and a run that satisfies them all |
| `Progress.dfy` | that the handlers get somewhere: replication converges, exactly a majority elects, terms catch up |
| `Probes.dfy` | probe rounds over runs |
| `Availability.dfy` | which servers suffice for an election that starts with a probe |
| `FreeRuns.dfy`, `Anomalies.dfy` | runs of three servers whose elections start with a probe, as the election timer starts them: for each of the first two assumptions one that keeps all others and goes wrong, and a promotion past the probed term |
| `Rules.dfy`, `LogRepair.dfy` | handlers against the rules of the Raft paper; conflict resolution |
| `Membership.dfy` | membership changes and overlapping quorums |
| `KeyOrder.dfy`, `Lsm.dfy`, `Tables.dfy`, `CrashSafety.dfy`, `Store.dfy` | the store: memtable, write-ahead log, tables, compaction, transactions; the disk states it passes through, each by name |
| `Recovery.dfy` | restart: log replay over leftover data, snapshots plus the kept suffix |
| `Coordinator.dfy` | the two-phase-commit coordinator |

The proof of the cluster theorems records a history beside the state: for each term its leader, the log
that leader started from and its log so far, all votes with the voter's log at that moment, all
acknowledgements and all commit decisions. Steps write this history and never read it. Leader
completeness is then an induction over terms.

## What the cluster theorems assume

The code does not enforce the following; `Cluster.Assumed` states it per step.

1. A late refusal of a vote (or of a transaction vote) never lowers the term or clears a vote. The code
   compares such a reply with the term of the request, not with the node's own term
   (rust/oxide-kv/src/raft/node.rs:1787-1792, rust/oxide-kv/src/raft/coordinator.rs:375-381).
   `Rules.RegressesIff` shows that the assumption is exactly what is missing, `Rules.SecondVoteIff` when a
   node votes twice in one term, and `Anomalies.TwoLeadersInOneTerm` a run, with all elections
   through probes, that does so and ends with two leaders of one term.
2. Match indices counted for a commit or for the replication gate go back to answers in the current
   term. The code neither clears `match_index` on election (node.rs:1813-1823) nor looks at role and term
   when it records a success (node.rs:1146-1161). `Hypotheses.CleanRunsAreRuns` derives this from two
   conditions on single steps; `Rules.StaleMatchCommitsIff` says exactly when leftover indices commit an
   entry nobody acknowledged, and `Anomalies.TwoEntriesCommitted` is a run, with all elections through
   probes, in which they do and two servers end up with different entries committed at one index.
3. Membership does not change during the run. Changes have their own theorems in `Membership.dfy`.
4. Each handler is one atomic step, and `sync_logs` builds a message as one step of a leader, although
   the code reads under several locks.

No assumption is made about the network or about `next_index`. Elections and requests may be started
at any moment by any node, which covers every timeout behaviour.

## Where code and promise part

* Late refusals and leftover match indices break election safety and state machine safety, as above.
* `get` answers nothing for a key that an older table holds, when a newer table covers the key's range
  without holding it (state_machine.rs:336). `Store.MissAfterTwoFlushes` reaches such a store with three
  writes and two flushes; `Store.StateMachine.Get` states exactly when the answer is right.
* A crash between writing a table and its sidecar leaves a directory that `open` refuses
  (state_machine.rs:181-192). Every other disk state of a write, a flush or a compaction opens, and to
  the right contents.
* A snapshot drops the transactions staged at that moment, so a later commit of one of them has no
  effect after a restart (`Recovery.StagedCommitIsLost`).
* After a restart from a snapshot the kept entries are numbered by position again: the applied index is
  their number, the log is no longer in place, and the next proposal gets an index that is already taken,
  unless nothing was dropped (`Recovery.IndicesAfterRestart`). Without a snapshot, everything in the log
  is applied although nothing is committed (`Recovery.IndicesWithoutSnapshot`).
* With two membership changes in flight the first one uses up the second one's follow-up
  (`Membership.SecondChangeIsStranded`), and quorums overlap only half of the time: a server added while
  another change is in flight is safe if and only if the smaller server set of the first change is even
  (`Membership.SecondAdditionSafeIff`).
* A node that is listed among its own peers dials itself until a configuration is installed
  (`Membership.PeersAtStart`).
* A probe does not count the node itself but asks for more than half of all servers (node.rs:1583-1600,
  1697-1700), so an election takes one live server more than the majority the deployment guide counts on
  (line 356 of the repository's README.md): with one of three servers down the other two never elect a leader.
  `Availability.ElectableIff` is the exact condition, `Availability.NeverElected` the same from any later moment
  of a run.
* A probe round that was left behind still counts: its grants promote the node from a later round. The
  promotion is at the probed term, as node.rs:1520-1524 and a debug assertion promise, if and only if the node
  still has the term from which the round was started (`Probes.PromotesAsProbedIff`);
  `Anomalies.PromotedPastProbe` is a run in which it has not.
* After a conflict the write-ahead log of a follower keeps the overwritten entries
  (`LogRepair.WalTracksLogIffNoConflict`).
* A snapshot installed into the store is in memory only until the next flush
  (`Store.StateMachine.InstallSnapshot`).

## Model

| member | source | states |
|---|---|---|
| Safety.ElectionSafety | rust/oxide-kv/src/raft/invariants.rs:226-247 | Any two leaders of the same term, at any two moments of a run, are the same node, whichever way they entered the election |
| Safety.LogMatching | rust/oxide-kv/src/raft/invariants.rs:261-310 | Two logs at any two moments with the same term at an index are identical up to that index |
| Safety.LogShape | rust/oxide-kv/src/raft/node.rs:833-859 | In every reachable log terms never decrease and never exceed the node's term, and an entry's index is its position plus one |
| Safety.LeaderAppendOnly | rust/oxide-kv/src/raft/node.rs:1825-1905 | While a node leads a term its log is only extended |
| Safety.LeaderCompleteness | rust/oxide-kv/src/raft/node.rs:1199-1246 | What any node has committed is in the log of every leader of a newer term, seen earlier or later, and of every later leader of the same term |
| Safety.StateMachineSafety | rust/oxide-kv/src/raft/invariants.rs:325-348 | Committed prefixes of any two nodes at any two moments are in bounds and one extends the other |
| Safety.CommitStable | rust/oxide-kv/src/raft/invariants.rs:364-449 | A node never loses, changes or un-commits what it has committed |
| Safety.ReplicasAgree | rust/oxide-kv/src/raft/node.rs:1248-1342 | Nodes that applied equally much hold the same data and staged transactions, namely the reference meaning of the applied prefix |
| Safety.SnapshotNamesEntry | rust/oxide-kv/src/raft/node.rs:2021-2073 | Index and term of a snapshot name an entry that every later leader holds at that index, and its data are the meaning of the log up to there |
| Safety.SentAppendsReachCommit | rust/oxide-kv/src/raft/node.rs:1109-1137 | Every AppendEntries ever sent covers the commit index it announces, or is refused by every node; and whoever handles one and moves its commit index moves it to exactly the announced index, within the entries the message verified, so the weaker follower rule is safe |
| Safety.FastForwardSafe | rust/oxide-kv/src/raft/node.rs:757-806 | Whoever receives a transaction vote request holds, up to the requested index, exactly what its sender has committed |
| Safety.CheckersNeverFail | rust/oxide-kv/src/raft/invariants.rs:226-449 | In every reachable state the election, log matching, state machine and durability checkers find no violation and never index out of bounds |
| Induction.RunHolds | rust/oxide-kv/src/raft/fault_scheduler.rs:77-95 | The cluster invariant holds in every state of every run with lost, delayed, repeated and reordered messages |
| Induction.StepKeeps | rust/oxide-kv/src/raft/node.rs:625-1928 | Every kind of step, from any state satisfying the invariant, keeps it |
| Induction.GateBacks | rust/oxide-kv/src/raft/coordinator.rs:564-592 | Passing the commit wait and the replication gate means that every peer's log holds a committed prefix up to the gate's index |
| Invariant.LaterLeadersHold | rust/oxide-kv/src/raft/node.rs:625-677 | A commit decision of a term is in the starting log of every later leader, by induction over terms |
| Hypotheses.CleanRunsAreRuns | rust/oxide-kv/src/raft/node.rs:1146-1161 | If nobody is elected with leftover match indices and successes are recorded only by the leader they answer, all theorems about runs apply |
| Example.SomeRunCommits | rust/oxide-kv/src/raft/node.rs:1733-1811 | A run within all assumptions exists in which one server is elected by another's vote and commits any proposal by its answer |
| Example.SomeRunVotes | rust/oxide-kv/src/raft/coordinator.rs:243-309 | A run within all assumptions exists in which the gate is passed for a BeginTx, the vote is asked for, and the peer grants it |
| Example.SomeRunAlone | rust/oxide-kv/src/raft/node.rs:1747-1758 | A run within all assumptions exists in which a server without peers elects itself and commits any proposal |
| Anomalies.TwoLeadersInOneTerm | rust/oxide-kv/src/raft/node.rs:1787-1792 | For any three servers there is a run, every election of which starts with a probe and which keeps every assumption but the one on late refusals, that ends with two leaders of the same term |
| Anomalies.TwoEntriesCommitted | rust/oxide-kv/src/raft/node.rs:1813-1823 | For any three servers and any commands there is a run, every election of which starts with a probe and which keeps every assumption but the one on match indices, in which two servers have committed different entries at the same index |
| Anomalies.PromotedPastProbe | rust/oxide-kv/src/raft/node.rs:1663-1720 | For any three servers there is a run within all assumptions in which a grant to a round that probed term 1 promotes the node to term 2 |
| Probes.PromotesAsProbedIff | rust/oxide-kv/src/raft/node.rs:1516-1541 | In every run, with or without assumptions, a grant that promotes a node promotes it at the term its round probed if and only if the node still has the term it had when it started that round |
| Probes.RunRounds | rust/oxide-kv/src/raft/node.rs:1603-1655 | In every run every probe request and answer in flight belongs to a round its sender has started and carries the term that round probes |
| Rules.CommitRuleExact | rust/oxide-kv/src/raft/node.rs:1220-1245 | Testing the term of one index only, the leader still moves to the greatest index that Figure 2 of the Raft paper allows, and stays if there is none |
| Rules.CommitRuleInRuns | rust/oxide-kv/src/raft/node.rs:1199-1246 | The same for every leader of every reachable state, with no condition on its log |
| Rules.SecondVoteIff | rust/oxide-kv/src/raft/node.rs:1787-1792 | After a refusal a node that has voted grants another candidate in the same term if and only if the refusal is newer than the request and not newer than the node; Anomalies.TwoLeadersInOneTerm reaches such a node |
| Rules.StaleMatchCommitsIff | rust/oxide-kv/src/raft/node.rs:1813-1823 | A new leader commits its first proposal before any answer if and only if the match indices left over already form a quorum for it; Anomalies.TwoEntriesCommitted reaches such a leader |
| Rules.PreVotePredictsVote | rust/oxide-kv/src/raft/node.rs:508-545 | For a newer term, a probe is granted if and only if it is for the next term and the real vote would be granted |
| Handlers.VoteExact | rust/oxide-kv/src/raft/node.rs:625-677 | A vote is granted if and only if the candidate's term is not older, the vote is free or already the candidate's, and the candidate's last entry is not older; what happens to term, role and vote in every case |
| Handlers.PreVoteExact | rust/oxide-kv/src/raft/node.rs:508-545 | A probe is granted if and only if it is for the node's term or the next one, the node does not lead the probed term, and the log is not older |
| Handlers.PreCandidateExact | rust/oxide-kv/src/raft/node.rs:1553-1600 | A round starts exactly on a follower, for the next term and all its servers, with no grant counted and without touching term or vote |
| Handlers.PreVoteReplyExact | rust/oxide-kv/src/raft/node.rs:1663-1720 | A newer term ends the probe phase, a refusal changes nothing, a grant is counted in its own round, and it promotes exactly a pre-candidate whose round then has more than half of the servers |
| Handlers.VoteReplyExact | rust/oxide-kv/src/raft/node.rs:1747-1800 | A node becomes leader exactly as a candidate, by a grant in its own term that makes its votes more than half of all servers; every other reply and its effect |
| Handlers.AloneExact | rust/oxide-kv/src/raft/node.rs:1733-1758 | Without peers exactly a candidate leads at once |
| Handlers.ProposeExact | rust/oxide-kv/src/raft/node.rs:833-859 | Exactly a leader appends, one entry of its term at the next index, to log and disk |
| Handlers.AddExact | rust/oxide-kv/src/raft/node.rs:906-955 | Which of the three answers belongs to which case, and that the proposed entry and the follow-up are the old list and the old list with the new server |
| Handlers.RemoveExact | rust/oxide-kv/src/raft/node.rs:960-1001 | Which of the five answers belongs to which case: a leader proposes the removal of exactly another listed server that is not the only one; the new list is the old one without it |
| Handlers.FollowsUpExact | rust/oxide-kv/src/raft/node.rs:1366-1390 | A pending simple configuration follows exactly the joint one that leads to it, or itself |
| Handlers.BuildExact | rust/oxide-kv/src/raft/node.rs:1109-1137 | The message carries everything of the log from the peer's next index on, with index and term of the entry before |
| Handlers.AppendExact | rust/oxide-kv/src/raft/node.rs:1825-1928 | The handler succeeds if and only if the sender's term is not older, this node does not lead it, and this node holds the message's previous entry; term, role and vote in every case, and a refusal changes nothing else |
| Handlers.AppendHolds | rust/oxide-kv/src/raft/node.rs:1891-1922 | After a success the log holds the message's entries right after the previous one, nothing before them has changed, and the commit index is the announced one as far as the log reaches |
| Handlers.AppendReplyExact | rust/oxide-kv/src/raft/node.rs:1144-1178 | A success is recorded for its last index, a newer term adopted, and any other refusal moves the next index back by one but not below the first entry |
| Handlers.BuildTxVoteExact | rust/oxide-kv/src/raft/coordinator.rs:275-309 | The request names the leader's term and index and term of the entry |
| Handlers.TxVoteExact | rust/oxide-kv/src/raft/node.rs:715-831 | A newer term is adopted and refused with that term, an older one refused; in the same term the vote is granted exactly to a log that is not older, about a transaction staged once the node has caught up |
| Handlers.TxReplyExact | rust/oxide-kv/src/raft/coordinator.rs:375-381 | The coordinator steps down exactly if it leads and the reply is from beyond the request's term |
| Handlers.StartExact | rust/oxide-kv/src/raft/node.rs:190-254 | Everything a node starts with |
| Handlers.SnapshotExact | rust/oxide-kv/src/raft/node.rs:2037-2052 | A snapshot carries the commit index and the term of the entry there, not the node's |
| Handlers.RestoreExact | rust/oxide-kv/src/raft/node.rs:271-285 | The data are replaced, what is staged is dropped, and both indices move up to the snapshot's or stay |
| Progress.CatchesUp | rust/oxide-kv/src/raft/node.rs:1072-1197 | However far apart the logs are, at most as many exchanges as the leader's next index bring the follower to the leader's log and the leader to record it; all but the last are refused |
| Progress.CatchesUpInRuns | rust/oxide-kv/src/raft/node.rs:1072-1197 | The same for any leader of any reachable state and any server in no newer term |
| Progress.ElectedIff | rust/oxide-kv/src/raft/node.rs:1733-1811 | Asking any list of voters elects the candidate if and only if it and those who are willing, by their own term, vote and log, are more than half of the servers |
| Progress.PromotedIff | rust/oxide-kv/src/raft/node.rs:1663-1720 | Probing any list of peers promotes the node if and only if those who approve are more than half of the servers of the round; otherwise exactly they are counted |
| Progress.TermsCatchUp | rust/oxide-kv/src/raft/node.rs:625-831 | In a run, whoever has handled a vote request, an AppendEntries or a transaction vote request of a term is in that term or a newer one ever after |
| Availability.NeverElected | rust/oxide-kv/src/raft/node.rs:1583-1600 | From any moment of a run: a server that can hear probe answers of at most half of the servers is never again a candidate or leader, whatever the others do |
| Availability.ElectableIff | rust/oxide-kv/src/raft/node.rs:1553-1720 | With elections that start with a probe, the servers that are up can elect a leader if and only if those besides the one that probes are more than half of all servers, or the cluster is one server |
| Availability.CutOffKeepsTerm | rust/oxide-kv/src/raft/timer.rs:85-102 | A server that no message reaches keeps term, vote and log however often its election timer fires |
| Quorum.CountMajority | rust/oxide-kv/src/protocol.rs:191-236 | The counting loop decides whether more than half of the listed servers are known to hold the index |
| Quorum.ComputeReached | rust/oxide-kv/src/protocol.rs:181-238 | A quorum is one majority under Simple and both majorities under Joint |
| Quorum.SearchHighest | rust/oxide-kv/src/protocol.rs:247-279 | The binary search terminates on the greatest index up to the own one that has a quorum, 0 if none |
| Quorum.ReachedDownward | rust/oxide-kv/src/protocol.rs:240-279 | A quorum for an index is a quorum for every lower one, which is what makes the search exact |
| Quorum.JointIsMinimum | rust/oxide-kv/src/protocol.rs:247-279 | Under Joint the search answers the smaller of the two Simple answers |
| Quorum.ReachedIsMajority | rust/oxide-kv/src/protocol.rs:191-236 | With distinct ids, what the loop accepts is a majority as a set of servers |
| Quorum.MajoritiesMeet | rust/oxide-kv/src/protocol.rs:168-180 | Majorities of nested server sets that differ by at most one server share a server |
| Quorum.MajoritiesMeetIff | rust/oxide-kv/src/protocol.rs:168-180 | Every majority of one server set meets every majority of another if and only if one of them is empty or their least majorities do not fit side by side into the union |
| Protocol.CombineIsUnion | rust/oxide-kv/src/protocol.rs:124-137 | The servers of a Joint configuration are exactly those of both lists, old ones first, without repeated ids |
| Protocol.CombineServers | rust/oxide-kv/src/protocol.rs:124-137 | The union takes whole servers, addresses included: all of the old list, the first one of each new id of the new list, and nothing else |
| Protocol.ComputeAllServers | rust/oxide-kv/src/protocol.rs:124-137 | The loop over the new list computes that union |
| Membership.ApplyLogsSettles | rust/oxide-kv/src/raft/node.rs:1248-1409 | Applying committed entries equals a closed form: exactly those entries are applied although the log grows meanwhile, the last configuration is installed, and the first one alone decides about the follow-up |
| Membership.PeersFollowConfig | rust/oxide-kv/src/raft/node.rs:1351-1361 | Applying committed entries keeps the dialled peers equal to the servers of the installed configuration without the node itself |
| Membership.DialExact | rust/oxide-kv/src/raft/node.rs:1351-1358 | The addresses dialled are exactly those of the servers other than the node itself |
| Membership.AdditionIsDialled | rust/oxide-kv/src/raft/node.rs:1351-1361 | While a server is being added it is dialled at its own address, after everyone who was dialled before |
| Membership.RemovalIsStillDialled | rust/oxide-kv/src/raft/node.rs:1351-1361 | While a server is being removed everyone is dialled as before |
| Membership.PeersAtStart | rust/oxide-kv/src/raft/node.rs:190-254 | A new node dials the right peers if and only if it is not listed among them |
| Membership.PeersAfterReplay | rust/oxide-kv/src/raft/node.rs:1411-1463 | After a replay the peers are right if and only if they were before or the log holds a configuration |
| Membership.JointWritesFollowUp | rust/oxide-kv/src/raft/node.rs:1351-1409 | Applying the committed Joint entry on the leader appends exactly one entry, the matching Simple, and clears what was pending |
| Membership.SimpleEndsChange | rust/oxide-kv/src/raft/node.rs:1351-1409 | Applying the Simple entry with nothing pending installs it and appends nothing |
| Membership.ChangeCompletesOnce | rust/oxide-kv/src/raft/node.rs:906-1001 | A single add or remove, from proposal to end and however commits and applications are interleaved with it, writes its follow-up once, ends in Simple(new) with matching peers and with everything committed applied |
| Membership.FollowUpIff | rust/oxide-kv/src/raft/node.rs:1366-1409 | The first configuration in a batch uses up the pending entry; the follow-up is written if and only if it matches |
| Membership.SecondChangeIsStranded | rust/oxide-kv/src/raft/node.rs:1366-1380 | With two different additions in flight the leader ends in a Joint configuration with nothing pending |
| Membership.ElectionCountsMajority | rust/oxide-kv/src/raft/node.rs:1747-1786 | A candidate's count of votes elects it if and only if the votes are an election quorum of its configuration |
| Membership.ReachedIsCommitQuorum | rust/oxide-kv/src/protocol.rs:181-238 | What the leader counts for a commit is a quorum of the configuration, both ways |
| Membership.QuorumsOverlap | rust/oxide-kv/src/raft/node.rs:906-1001 | For every add or remove the code builds from a Simple configuration of any size, an election quorum under the old, joint or new configuration meets every commit quorum under any of the three |
| Membership.AlwaysMeetIff | rust/oxide-kv/src/protocol.rs:191-236 | Exactly when elections under any configuration meet commits under a simple one, in the sizes of the server sets |
| Membership.SecondAdditionSafeIff | rust/oxide-kv/src/raft/node.rs:906-955 | An addition proposed while a one-server change is in flight is built from the union; elections under it meet every commit under the three configurations of the first change if and only if the smaller of its two server sets has an even number of servers |
| Membership.TwoChangesCanMiss | rust/oxide-kv/src/raft/node.rs:906-955 | An instance of the odd case: after removing one of four servers and adding another, an election can miss the commit quorum of the first change |
| LogRepair.ResolveForm | rust/oxide-kv/src/raft/node.rs:1891-1905 | The conflict loop leaves an agreeing log alone and otherwise cuts exactly at the first missing or differing entry |
| LogRepair.ResolveContains | rust/oxide-kv/src/raft/node.rs:1891-1905 | The message's entries end up in the log, what precedes them stays, and a log that agrees is never shortened |
| LogRepair.AppendTwice | rust/oxide-kv/src/raft/node.rs:1825-1928 | Handling the same message again changes neither log, commit index nor applied state, and gives the same reply |
| LogRepair.ApplyLogsTwice | rust/oxide-kv/src/raft/node.rs:1248-1342 | Applying committed entries again does nothing |
| LogRepair.WalTracksLogIffNoConflict | rust/oxide-kv/src/raft/node.rs:1891-1905 | The write-ahead log follows the log if and only if no entry was overwritten |
| Reference.ReplayBatches | rust/oxide-kv/src/raft/reference_model.rs:112-192 | Replaying a log in two batches, cut anywhere, gives what replaying it at once gives |
| Reference.FirstDecisionWins | rust/oxide-kv/src/state_machine.rs:480-499 | The first DecideTx after the latest BeginTx, whether or not others follow, applies all staged operations or none and unstages them, and every later one before a new BeginTx changes nothing |
| Reference.LaterDecisionIgnored | rust/oxide-kv/src/state_machine.rs:480-499 | A decision about a transaction that is decided and not begun again changes nothing |
| Reference.StagedUntilDecided | rust/oxide-kv/src/state_machine.rs:446-464 | From its BeginTx to its decision a transaction stays staged with its operations |
| Reference.ClosedAfterDecision | rust/oxide-kv/src/state_machine.rs:480-499 | After a decision nothing of the transaction is staged until it is begun again |
| Reference.ReferenceModel.ApplyAt | rust/oxide-kv/src/raft/reference_model.rs:112-192 | The oracle applies exactly the next index and refuses repeated and skipped ones without effect |
| Reference.ReferenceModel.ReplayFromNode | rust/oxide-kv/src/raft/reference_model.rs:283-306 | Rebuilding from a node's log gives the meaning of its committed prefix |
| RaftNode.RaftStorage.RestoreWalLog | rust/oxide-kv/src/raft/storage.rs:75-87 | Entries come back as they were appended |
| RaftNode.RaftStorage.RewriteWal | rust/oxide-kv/src/raft/storage.rs:134-151 | The rewrite keeps the entries after the index, in order, and reports how many |
| RaftNode.RaftNode.constructor | rust/oxide-kv/src/raft/node.rs:190-254 | A node starts as a follower with the term, vote and log found on disk and the configuration of itself and its peers |
| RaftNode.RaftNode.HandlePreVote | rust/oxide-kv/src/raft/node.rs:508-545 | The answer to a probe is the step function's (Handlers.PreVoteExact), and nothing changes |
| RaftNode.RaftNode.HandleRequestVote | rust/oxide-kv/src/raft/node.rs:625-677 | State and reply are the step function's (Handlers.VoteExact), with term and vote saved on disk |
| RaftNode.RaftNode.Promote | rust/oxide-kv/src/raft/node.rs:1532-1541 | A new term, a vote for itself, saved on disk |
| RaftNode.RaftNode.BecomePreCandidate | rust/oxide-kv/src/raft/node.rs:1553-1600 | Only a follower starts a probe round, with a counter of its own |
| RaftNode.RaftNode.OnPreVoteReply | rust/oxide-kv/src/raft/node.rs:1663-1720 | Counting a probe answer in the counter of its own round does what the step function says (Handlers.PreVoteReplyExact) |
| RaftNode.RaftNode.OnVoteReply | rust/oxide-kv/src/raft/node.rs:1747-1800 | Counting a vote, winning and stepping down do what the step function says (Handlers.VoteReplyExact) |
| RaftNode.RaftNode.BecomeLeader | rust/oxide-kv/src/raft/node.rs:1813-1823 | A new leader resets next indices and keeps its match indices |
| RaftNode.RaftNode.Propose | rust/oxide-kv/src/raft/node.rs:833-859 | Only a leader appends, to the log and to the write-ahead log alike |
| RaftNode.RaftNode.ProposeAddNode | rust/oxide-kv/src/raft/node.rs:906-955 | Joint entry, remembered follow-up and every error case as in the step function (Handlers.AddExact) |
| RaftNode.RaftNode.ProposeRemoveNode | rust/oxide-kv/src/raft/node.rs:960-1001 | The same for a removal, including the last server and the leader itself (Handlers.RemoveExact) |
| RaftNode.RaftNode.InstallConfig | rust/oxide-kv/src/raft/node.rs:1351-1409 | Configuration, peers and follow-up as in the step function |
| RaftNode.RaftNode.ApplyLogs | rust/oxide-kv/src/raft/node.rs:1248-1342 | The loop over a growing log equals the recursive step function |
| RaftNode.RaftNode.MaybeCommit | rust/oxide-kv/src/raft/node.rs:1199-1246 | Search, term test and apply equal the step function |
| RaftNode.RaftNode.BuildAppend | rust/oxide-kv/src/raft/node.rs:1109-1137 | The message built for a peer is the one the cluster model sends |
| RaftNode.RaftNode.OnAppendReply | rust/oxide-kv/src/raft/node.rs:1144-1178 | Recording a success, stepping down and backing up equal the step function (Handlers.AppendReplyExact) |
| RaftNode.RaftNode.MergeEntries | rust/oxide-kv/src/raft/node.rs:1891-1905 | The in-place conflict loop computes the resolved log and the entries written to disk |
| RaftNode.RaftNode.HandleAppendEntries | rust/oxide-kv/src/raft/node.rs:1825-1928 | State and reply of the whole handler equal the step function (Handlers.AppendExact and AppendHolds) |
| RaftNode.RaftNode.HandleTxVoteRequest | rust/oxide-kv/src/raft/node.rs:715-831 | State and reply equal the step function (Handlers.TxVoteExact), and a granted vote is recorded on the staged transaction |
| RaftNode.RaftNode.ProposeAbortTx | rust/oxide-kv/src/raft/node.rs:1031-1059 | An abort is proposed exactly by a leader for a pending transaction |
| RaftNode.RaftNode.ReplayLogs | rust/oxide-kv/src/raft/node.rs:1411-1463 | Replaying gives the meaning of the whole log and its last configuration |
| RaftNode.RaftNode.RestoreFromSnapshot | rust/oxide-kv/src/raft/node.rs:271-285 | The store becomes the snapshot, with nothing staged, and the indices move up to it |
| RaftNode.RaftNode.MaybeSnapshot | rust/oxide-kv/src/raft/node.rs:2021-2073 | Taken exactly by a leader over the threshold with something committed; it holds the store's contents, and the write-ahead log keeps the later entries; the term is that of its last entry (Handlers.SnapshotExact) |
| Store.StateMachine.Set | rust/oxide-kv/src/state_machine.rs:259-285 | The contents change as a map does, whether or not a flush follows; the disk states on the way are the named ones and each that opens reopens to the new contents; the size estimate stays exact, and afterwards the memtable is empty or below the threshold |
| Store.StateMachine.Delete | rust/oxide-kv/src/state_machine.rs:289-309 | The key leaves the contents, whether or not a flush follows; the disk states on the way are the named ones and each that opens reopens to the new contents; the size estimate stays exact, and afterwards the memtable is empty or below the threshold |
| Store.WriteTotal | rust/oxide-kv/src/state_machine.rs:259-309 | The size estimate that decides about a flush stays exact over every write, without ever saturating |
| Store.StateMachine.Flush | rust/oxide-kv/src/state_machine.rs:558-604 | Contents unchanged, memtable empty, the new table last. The disk states on the way are the four named ones: before, with the table, with its sidecar, with the log truncated; all but the second open and reopen to the same contents |
| Store.StateMachine.Compact | rust/oxide-kv/src/state_machine.rs:608-653 | Contents unchanged, one table left. The disk states on the way are the named ones: the merged table alone, with its sidecar, and after each single deletion the merged table with the old tables that remain; all but the first open and reopen to the same contents |
| CrashSafety.FlushIsSafe | rust/oxide-kv/src/state_machine.rs:558-604 | Of the four disk states of a flush all but the second open, with sidecars that describe their tables, and reopen to the contents |
| CrashSafety.CompactIsSafe | rust/oxide-kv/src/state_machine.rs:608-653 | Of the disk states of a compaction all but the first open, with sidecars that describe their tables, and reopen to the contents, so the order of deletions is safe at every point |
| CrashSafety.OneMoreDeleted | rust/oxide-kv/src/state_machine.rs:646-651 | Each deletion removes exactly the oldest table that is left |
| CrashSafety.StepIsSafe | rust/oxide-kv/src/state_machine.rs:259-653 | A crash in any disk state of any write, flush or compaction that opens leaves the contents that the operation makes |
| Lsm.MergedOverSuffix | rust/oxide-kv/src/state_machine.rs:608-652 | The merged table without tombstones, over any newest part of the old tables, shows what the old tables showed, so no deleted key comes back |
| Lsm.NewestFirstResurrects | rust/oxide-kv/src/state_machine.rs:640-652 | Deleting the newest table first would bring a deleted key back |
| Lsm.RowsRoundTrip | rust/oxide-kv/src/state_machine.rs:558-604 | Writing a memtable as sorted rows and reading the rows gives the memtable |
| Store.StateMachine.Get | rust/oxide-kv/src/state_machine.rs:312-342 | A returned value is always the current one; the answer is right if and only if the key is in the memtable or no covering table without the key hides an older live value |
| Tables.Search | rust/oxide-kv/src/state_machine.rs:320-342 | The same for the table part of the lookup, newest to oldest |
| Tables.OneCoveringTableIsExact | rust/oxide-kv/src/state_machine.rs:320-342 | With at most one table whose range contains the key nothing is hidden |
| Tables.LookupCanMiss | rust/oxide-kv/src/state_machine.rs:336 | Two valid tables on which the lookup hides a live value |
| Store.MissAfterTwoFlushes | rust/oxide-kv/src/state_machine.rs:312-342 | Starting from an empty store, three writes and two flushes lead to a store that holds a value which the lookup does not find |
| Store.GetAfterCompaction | rust/oxide-kv/src/state_machine.rs:608-653 | After a compaction every lookup gives the current value |
| Store.StateMachine.SnapshotData | rust/oxide-kv/src/state_machine.rs:346-369 | The merged view is exactly the contents |
| Store.StateMachine.InstallSnapshot | rust/oxide-kv/src/state_machine.rs:382-419 | The contents become the snapshot with nothing staged; they are durable only if empty |
| Store.StateMachine.BeginTx | rust/oxide-kv/src/state_machine.rs:431-464 | The operations are staged, replacing earlier ones and their votes |
| Store.StateMachine.RecordVote | rust/oxide-kv/src/state_machine.rs:467-475 | A vote lands on a pending transaction only and is invisible in the contents |
| Store.StateMachine.DecideTx | rust/oxide-kv/src/state_machine.rs:480-499 | Commit applies the staged operations in order, abort none, and an unknown transaction changes nothing |
| Store.StateMachine.ApplyCommand | rust/oxide-kv/src/raft/node.rs:1276-1297 | Every command changes the store as the reference meaning says |
| Store.Open | rust/oxide-kv/src/state_machine.rs:172-246 | Opening fails exactly when a table lacks its sidecar; otherwise the tables are in age order, and the contents are those on disk with the write-ahead log replayed |
| Store.Drive | rust/oxide-kv/src/state_machine.rs:259-369 | For every sequence of sets, deletes, flushes and compactions the contents are the plain map's, and reopening at the end shows the same |
| Recovery.ReplayIsWrites | rust/oxide-kv/src/raft/node.rs:1411-1463 | Replaying a log is applying its write sequence; what is staged does not depend on the data |
| Recovery.ReplayOverLeftovers | rust/oxide-kv/src/raft/node.rs:1411-1463 | Replaying over leftover data gives the log's meaning if and only if the log writes every leftover key |
| Recovery.RecoveryIdempotent | rust/oxide-kv/src/raft/node.rs:1411-1463 | With the store left after any prefix of the log's writes and nothing staged, replaying the whole log gives the same data and staged transactions as replaying it once from empty |
| Recovery.CrashLeavesPrefix | rust/oxide-kv/src/state_machine.rs:480-499 | A crash while an entry is applied, even between two operations of one transaction, leaves such a prefix |
| Recovery.CrashAndRecover | rust/oxide-kv/src/main.rs:96-107 | From an empty store through any mix of flushes and compactions among the writes, a crash in any disk state of any further operation or between operations, a reopening and the replay: the node serves the meaning of its log, unless that one directory does not open |
| Recovery.RecoverFromCrash | rust/oxide-kv/src/state_machine.rs:172-246 | The same from any durable store that holds a prefix of the log's writes, for each named disk state of the operation that crashes |
| Recovery.Restart | rust/oxide-kv/src/main.rs:96-107 | Startup restores the snapshot if there is one and replays the rest |
| Recovery.SnapshotPlusSuffix | rust/oxide-kv/src/raft/node.rs:2021-2073 | Whatever earlier snapshots have trimmed, snapshot plus the entries kept by the rewrite, and any written later, give the state of the whole log, when what is committed is applied and nothing is staged |
| Recovery.SnapshotBeforeRewrite | rust/oxide-kv/src/raft/node.rs:2055-2058 | A crash after the snapshot is saved and before the write-ahead log is rewritten is harmless: startup gives the state of the whole log, if nothing was staged at the snapshot before |
| Recovery.SnapshotSafeIff | rust/oxide-kv/src/raft/node.rs:2021-2073 | Restarting right after any snapshot of the whole log gives the same state if and only if nothing was staged |
| Recovery.StagedCommitIsLost | rust/oxide-kv/src/raft/node.rs:271-285 | Committing a transaction staged at the snapshot writes nothing after a restart, so the data differ exactly when its operations would have changed them |
| Recovery.TrimmedStays | rust/oxide-kv/src/raft/node.rs:2058-2071 | While a node leads, the write-ahead log stays the part of the log after the last snapshot: proposals keep it so, and a snapshot moves the point to its own index |
| Recovery.TrimmedAfterAppend | rust/oxide-kv/src/raft/node.rs:1891-1905 | On a follower an accepted AppendEntries keeps it so if and only if no entry of the message conflicts with the log |
| Recovery.IndicesAfterRestart | rust/oxide-kv/src/raft/node.rs:1457-1463 | After a restart from a snapshot the applied index is the commit index if and only if exactly as many entries were kept as dropped; the log is in place if and only if none were dropped or none kept; the next proposal gets the right index if and only if none were dropped |
| Recovery.PeersAfterStartup | rust/oxide-kv/src/main.rs:96-107 | After startup the dialled peers are right if and only if the node is not among its own peers or the log holds a configuration |
| Recovery.RetainIsSuffix | rust/oxide-kv/src/raft/storage.rs:134-151 | Of a log in place the rewrite keeps exactly the part after the index |
| Coordinator.Tally | rust/oxide-kv/src/raft/coordinator.rs:353-420 | The tally loop computes the verdict, and recording votes changes nothing visible |
| Coordinator.FinishRound | rust/oxide-kv/src/raft/coordinator.rs:375-437 | Acting on a verdict, on whatever the node has become since the tally: a newer term makes a leader step down with no decision; otherwise the verdict is proposed if the node leads now |
| Coordinator.RoundDecides | rust/oxide-kv/src/raft/coordinator.rs:343-420 | For any peer states and lost answers: commit if and only if every peer answered and votes yes; no decision if and only if an answer came from a newer term; abort otherwise |
| Coordinator.FirstNewerIsFirst | rust/oxide-kv/src/raft/coordinator.rs:369-382 | The newer term that ends a round is that of the first such answer |
| Coordinator.CommitMeansAllStaged | rust/oxide-kv/src/raft/coordinator.rs:343-437 | A decision to commit means that every peer granted in the leader's term and holds the transaction staged |
| Coordinator.AnswerMeans | rust/oxide-kv/src/raft/node.rs:715-831 | A peer grants exactly when it is in the leader's term, is not fresher than the request, and has the transaction staged after catching up |
| Coordinator.WaitForReplication | rust/oxide-kv/src/raft/coordinator.rs:564-592 | The wait succeeds exactly if the node leads at every poll up to one at which all peers have the entry |
| Coordinator.WaitsOpenGate | rust/oxide-kv/src/raft/coordinator.rs:243-273 | The commit wait followed by the replication wait amounts to seeing both at once |
| Coordinator.VoteIsAboutLeadersTx | rust/oxide-kv/src/raft/node.rs:757-831 | In a run, a voter in the leader's term that has not gone past the transaction grants, and what it holds staged is the operations of the leader's own BeginTx |

## Left out

- Linearizability of reads (`begin_read`, `confirm_read`): the lease is refreshed by any single peer, so there is no quorum to argue from.
- Timers, election timeouts and wall-clock bounds: steps may be taken at any time and waits are sequences of polled states; progress is stated as what enough exchanges or answers reach (`Progress`, `Availability`), not when they happen.
- What a client is told about a transaction: only the outcome in the log is modelled.
- Store.Open: requires that the sidecars that exist describe their tables; every directory the store itself leaves satisfies it (CrashSafety.StepIsSafe), and the code trusts any other sidecar as it is.
- `handle_install_snapshot` and the trimming of a follower's log: nothing sends that message, and it breaks the equation of position and index the other handlers rely on.
- Restarts inside the cluster theorems: a restart replays uncommitted entries too, and the write-ahead log may hold overwritten ones; recovery has its own theorems, for a write-ahead log equal to the log.
- Membership changes inside the cluster theorems: they have their own theorems, one change at a time.
- `check_2pc_atomicity`: it scans uncommitted log entries as well, about which nothing is promised; the outcome over committed entries is `Reference.FirstDecisionWins` with `Safety.ReplicasAgree`.
- `propose_batch` and the single-node fast path: several proposals in a row.
- The standalone leader that `main.rs` creates at term 0 without an election.
- I/O errors, fsync, encodings and framing: writes to disk succeed and are read back as written; a torn last line of a log, which `open` refuses, is not modelled.
- The number of servers a candidate compares its votes with: the code fixes it when it asks, the model reads it when a vote arrives; they differ only while membership changes.
- An AppendEntries entry with index 0, on which the code would underflow: the model appends it; no leader sends one.
- A sidecar without its table: `open` ignores it, so deleting a table and its sidecar is one step here.
- Overflow of 64-bit terms and indices: they are unbounded here.
- Sizes in bytes: keys and values are counted in characters; the estimate is not followed through a reopening, where the code starts it anew from the log's lines.
- Timestamps of pending transactions and the sweep that selects old ones; `ProposeAbortTx` is what it calls.
- Join requests, metrics, HTTP, the command line, the client libraries and the simulation harness.

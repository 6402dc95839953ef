# Verified model of a Raft-based distributed file system

The system stores files in blocks on chunk servers. Metadata is kept by masters
that replicate their state with Raft, one Raft group per shard. This project
models the parts where a mistake would lose or confuse data, and proves what
they are for:

| part | files | main results |
|---|---|---|
| Raft | `Quorum`, `Raft*` | one leader per term, state machine safety, leader completeness, acknowledged requests were applied by the leader that took them and are durable, no client is forgotten, replay of a store, the next request can always be served, by a majority as long as its logs are not compacted; for each result, at which crash points it holds, and runs in which the main ones fail beyond that |
| replicated file table | `Master`, `MasterFiles` | what is at every path after any run of commands; no two files share a block if no block id is brought twice |
| linearizability checker | `Sorting`, `Checker*` | exactly which histories it accepts, and that these are linearizable |
| cross-shard rename | `TwoPhase` | no file is lost or overwritten, whatever the interleaving, and recovery can finish; with rivals at the destination, exactly when one is lost |
| shard map | `StringOrder`, `ShardTable`, `ShardMap` | routing stays exact under every run of changes that does not merge the last shard into itself; consistent hashing moves the minimum |
| placement | `Placement` | distinct servers, as many racks as possible, balanced |
| range reads, erasure coding, checksums | `Bytes`, `Erasure`, `RangeRead`, `Checksums` | a range read is the slice of the file; k shards give back the data; full and partial verification agree |
| bucket listing | `Listing` | the pages that the continuation token leads to are one listing |

`dafny verify dfyconfig.toml` checks everything.

## How the Raft part is built

1. `RaftProtocol` describes servers with full, uncompacted logs, a set of
   messages that only grows (so messages may be lost, repeated and reordered),
   and a history of votes, reigns and acknowledgements. `RaftInvariant`,
   `RaftSteps` and `RaftLogSteps` prove that every step keeps the invariant, and
   `RaftSafety` draws the safety theorems over whole runs from it.
2. `RaftNode` is the node as the program keeps it: a log whose slot 0 stands for
   the snapshot point, the key-value store, the table of waiting clients, and
   for every event an effect that lists the store writes in order.
   `RaftStorage`, `RaftRefinement` and `RaftReplication` show that every
   reaction is a sequence of protocol steps of the full-log server the node
   stands for. `RaftCrash` shows the same for a crash after any prefix of the
   writes that does not tear the log, followed by a restart from the store.
3. `RaftCluster` runs such nodes together with crashes, and keeps a ledger of
   requests, their places in the log, what was applied by whom, and the answers.
   `RaftElections`, `RaftPlaces`, `RaftAccounts` and `RaftClients` reason about
   such runs directly and hold wherever crashes cut in, even where a log is torn.
   `RaftExplained` explains runs by the protocol, as long as no log is torn;
   these are called executions, and `RaftTheorems`, `RaftFollowers` and
   `RaftCommit` are about them. `RaftState` is about the application state and
   excludes half-done snapshots as well.
4. `RaftDuties` says what a node owes its peers, to which requests it gives its
   vote and what it sends and accepts. `RaftProgress` builds on it: from every
   state of every execution a request can still be served.
5. `RaftServer` is the mutable object, with the loops and the order of writes of
   the program; each of its methods is proved to do what `RaftNode` says.
6. `RaftHazards` says where crashes leave something half done and what a node
   comes back as after that; `RaftMishaps` and `RaftTornLog` have runs that go
   wrong there.

Which results hold at which crash points, by the `Scope` of the run:

| crash points | results | beyond that |
|---|---|---|
| all (`AnyPoint`) | one leader per term, one vote per term (`RaftElections`); a positive answer is backed by the client's own entry, nobody is answered twice or forgotten, who waits is told (`RaftClients`) | |
| all but those between two deletes of one truncation (`LogsWhole`) | state machine safety, leader completeness, durability and separate indices of acknowledged requests (`RaftTheorems`); followers and the commit scan (`RaftFollowers`, `RaftCommit`); progress (`RaftProgress`) | those of `RaftTheorems` named here, and rising terms along a log, fail in `RaftTornLog.CommittedEntryLost` |
| all but those and the one between the halves of a snapshot (`AllWhole`) | the state is the fold of the log, equal indices mean equal states, replay (`RaftState`) | equal states fail in `RaftMishaps.SnapshotMishap` |

Assumptions: one `ClusterConfiguration`, simple or joint, is shared by all nodes
and does not change; a node's peers are its members other than itself, with
distinct ids; store writes succeed; clients do not hand in one request twice.
Start-up assumes the fixed member map, since deriving it from addresses can fail
(`dfs/metaserver/src/simple_raft.rs`, lines 711-722).

## What the code does not do

Some properties one would expect are false of the code. Each has a
counterexample and the exact condition under which it holds.

- A crash between the two writes of `create_snapshot` makes a node restart with
  an old state at a new applied index; if nothing was left half done before, its
  state is right if and only if the older snapshot data was that state already
  (`RaftHazards.HalfSnapshot`, `RaftMishaps.HalfSnapshotBreaks`,
  `RaftMishaps.SnapshotMishap`).
- A crash inside the deletes of `delete_log_entries_from` lets discarded entries
  come back behind later ones, exactly when the new entries neither leave a gap
  before the old ones nor cover all of them (`RaftHazards.TornComesBack`,
  `RaftHazards.MisledVoter`); a leader can then lack a committed and acknowledged
  entry, and two nodes apply different commands (`RaftTornLog.CommittedEntryLost`).
- A merge of shards is exact if and only if they are adjacent
  (`ShardTable.MergeExactIffAdjacent`), and it keeps the table well formed if
  and only if it does not merge the shard with the last boundary into itself
  (`ShardTable.ChangeKeepsIff`, `ShardTable.StrandedRun`).
- A rename can report success and delete its source although its file never
  was at the destination, because a prepared record does not reserve the path
  (`TwoPhase.RacingRenames`); this happens if and only if something else was
  there whenever its create was applied and nobody else put the file there
  (`TwoPhase.LostIff`). The results that nothing is lost or overwritten assume
  that nobody else touches the two paths.
- A read of length 0 strictly inside a plain block returns the rest of the block
  (`RangeRead.ReadFileRange`, `RangeRead.EmptyRangeInside`).
- Listing with one key per page sticks at a file listed under the empty key, and
  `start-after` overrides the continuation token (`Listing.PagingEndsIff`,
  `Listing.StartAfterRepeats`).

Where comments and code differ, the model follows the code: the single-register
test of the checker lets a put or delete take effect whatever its reported
result, and places it at its return time or, without one, at its call; a commit
request for a rename is carried out even if the record was aborted before.

## Model

| member | source | states |
|---|---|---|
| `RaftTheorems.SameCommandEverywhere` | dfs/metaserver/src/simple_raft.rs:2430-2456 | state machine safety: in every execution, no two nodes ever apply different entries at one log index |
| `RaftState.SameAppliedSameState` | dfs/metaserver/src/simple_raft.rs:2430-2456 | if no crash leaves a truncation or a snapshot half done, two nodes that have applied equally much, at any two moments, hold the same application state |
| `RaftTheorems.LeadersHoldCommitted` | dfs/metaserver/src/simple_raft.rs:1902-1968 | leader completeness: in every execution, a leader holds every entry that any node of its term or an earlier one ever committed, as far as neither compacted it away |
| `RaftElections.OneLeaderPerTerm` | dfs/metaserver/src/simple_raft.rs:1276-1408 | election safety: at any two moments of any run, wherever crashes cut in, two leaders of one term are the same node |
| `RaftElections.RunsPolled` | dfs/metaserver/src/simple_raft.rs:1276-1408 | wherever crashes cut in, one growing record of votes accounts for every run: each node's own vote, every vote granted or counted, and a joint majority behind every leader |
| `RaftElections.AdvancePolled` | dfs/metaserver/src/simple_raft.rs:1160-1274 | every step of the cluster, complete or cut by a crash after any write, keeps that account |
| `RaftElections.PrefixSteady` | dfs/metaserver/src/simple_raft.rs:1276-1311 | whatever part of its writes a reaction has carried out, the stored term is not lower, and in the same term a vote once cast is still there |
| `RaftElections.ReactProper` | dfs/metaserver/src/simple_raft.rs:1659-1671 | every reaction writes a higher term first and once, or leaves term and vote alone, or casts the vote of a node that has none |
| `RaftElections.ReactCampaigns` | dfs/metaserver/src/simple_raft.rs:1902-1999 | who is a candidate or leads after a reaction, and why, and that a node grants only the vote it has recorded |
| `RaftClients.AnsweredIsApplied` | dfs/metaserver/src/simple_raft.rs:1689-1778 | in every run, wherever crashes cut in: a client hears Ok only if the very entry appended for it was applied, by the leader of the term in which it was appended, and no other node ever leads that term |
| `RaftTheorems.AnsweredAlone` | dfs/metaserver/src/simple_raft.rs:1689-1778 | in every execution, no node ever applies anything but the client's own entry at the index of a request that was answered positively |
| `RaftClients.DoerLeads` | dfs/metaserver/src/simple_raft.rs:2430-2456 | in every run, whoever applied an entry as leader of a term is the only leader that term ever has |
| `RaftClients.AnsweredSince` | dfs/metaserver/src/simple_raft.rs:1689-1778 | in every run, at every moment between its placing and its positive answer, a request waits at that one leader, which leads that very term |
| `RaftClients.NobodyForgotten` | dfs/metaserver/src/simple_raft.rs:1659-1778 | in every run, every request ever handed in is in exactly one of three places: it waits at the leader that took it, it has its answer, or the node that had it crashed |
| `RaftTheorems.AnsweredSurvives` | dfs/metaserver/src/simple_raft.rs:1689-1778 | acknowledged means durable: in every execution, from a positive answer on, every leader of that term or a later one holds the very entry at its index, or has it behind its snapshot point |
| `RaftTheorems.AnsweredApart` | dfs/metaserver/src/simple_raft.rs:1689-1778 | in every execution, different requests answered positively occupy different log indices |
| `RaftClients.OneAnswerEach` | dfs/metaserver/src/simple_raft.rs:1659-1685 | in every run, whoever an event answers had no answer before, gets only this one from it, and waited at no more than one index of one node |
| `RaftClients.WaitingUnanswered` | dfs/metaserver/src/simple_raft.rs:2430-2456 | in every run, only a leader keeps clients waiting, and nobody who waits has been answered |
| `RaftClients.StepDownTurnsAway` | dfs/metaserver/src/simple_raft.rs:1659-1685 | in every step of every run, whoever waits goes on waiting at the same leader, or is answered, or was lost with a crash of that leader; a leader that stops leading its term without crashing refuses everybody who waits |
| `RaftFollowers.FollowerAgrees` | dfs/metaserver/src/simple_raft.rs:2000-2138 | in every execution, after a message was accepted the log reaches to its end, was cut only at a conflict, and the commit index did not pass that end by this message |
| `RaftFollowers.FollowerMatchesLeader` | dfs/metaserver/src/simple_raft.rs:2000-2138 | in every execution, the follower then holds the leader's log of that term up to the end of the message, at whatever moment one looks at that leader |
| `RaftElections.OneVoteGranted` | dfs/metaserver/src/simple_raft.rs:1902-1968 | wherever crashes cut in, a node grants its vote to one candidate per term |
| `RaftElections.CandidateVotesForItself` | dfs/metaserver/src/simple_raft.rs:1276-1365 | wherever crashes cut in, a node grants no vote to another in a term in which it stands |
| `RaftElections.VoteAnswered` | dfs/metaserver/src/simple_raft.rs:1902-1968 | in every run, a vote request that reaches a node gets exactly one answer, to the candidate: a grant if and only if the request is not outdated, the candidate's log is not older, and the node has voted for nobody else in that term; a granted vote is in the store |
| `RaftDuties.VoteDuty` | dfs/metaserver/src/simple_raft.rs:1902-1968 | the same for every node and request, with everything else the request may change |
| `RaftDuties.GrantedAgain` | dfs/metaserver/src/simple_raft.rs:1902-1968 | a request whose grant was lost is granted again |
| `RaftDuties.ElectionDuty` | dfs/metaserver/src/simple_raft.rs:1276-1365 | who stands stores its term and vote and asks exactly its peers, with its own last index and term |
| `RaftDuties.CountDuty` | dfs/metaserver/src/simple_raft.rs:1969-1999 | a candidate takes office if and only if the vote completes a joint majority; a higher term makes it follow; any other reply changes nothing |
| `RaftDuties.TakesOffice` | dfs/metaserver/src/simple_raft.rs:1367-1408 | the new leader has an entry of its term at the end of the log and in the store, and its tables cover exactly its peers |
| `RaftDuties.HeartbeatDuty` | dfs/metaserver/src/simple_raft.rs:1410-1585 | a heartbeat sends every peer exactly the entries from its next index on, with the term before them, and nothing to anybody else |
| `RaftDuties.AppendDuty` | dfs/metaserver/src/simple_raft.rs:2000-2151 | every message of a leader gets one answer: yes if and only if it is not outdated and the log holds the entry it builds on; then the log is merged and the commit index follows as far as the log goes |
| `RaftDuties.ReplyDuty` | dfs/metaserver/src/simple_raft.rs:2152-2292 | yes moves the peer's indices to what it reported, no moves its next index one back but not behind the snapshot point, and other peers are unaffected |
| `RaftDuties.SnapshotDuty` | dfs/metaserver/src/simple_raft.rs:1033-1097 | a snapshot is taken if and only if more than a hundred entries are in memory and something was applied since; it saves index, term and application state, keeps the later entries, and deletes exactly those it covers from the store |
| `RaftProgress.NeverStuck` | dfs/metaserver/src/simple_raft.rs:1160-1274 | from every state of every execution, the nodes that are up can serve a new request if they are a joint majority and, unless all are up, have not compacted: some continuation changes nobody else and acknowledges it |
| `RaftProgress.Elects` | dfs/metaserver/src/simple_raft.rs:1276-1408 | of a joint majority that is up, the node with the newest log can be elected in a term later than any of theirs |
| `RaftProgress.Backers` | dfs/metaserver/src/simple_raft.rs:2226-2280 | a joint majority holds what the new leader may have compacted, so that it can be brought up to date |
| `RaftProgress.Catches` | dfs/metaserver/src/simple_raft.rs:2152-2292 | a peer whose log meets that of the leader somewhere gets its whole log, refusal by refusal, and acknowledges it |
| `RaftFollowers.PieceMatches` | dfs/metaserver/src/simple_raft.rs:2000-2138 | a log that ends a message with the right term holds the leader's log up to there |
| `RaftFollowers.MergeShape` | dfs/metaserver/src/simple_raft.rs:2045-2118 | merging reaches to the end of the message and cuts only at a conflict |
| `RaftFollowers.LeaderCommitCovered` | dfs/metaserver/src/simple_raft.rs:1536-1585 | in every execution, no message announces a commit index beyond the entries it brings, because the whole suffix is sent |
| `RaftAccounts.RunsOrdered` | dfs/metaserver/src/simple_raft.rs:1659-1778 | every run, wherever crashes cut in, keeps its books: requests are accounted for, positive answers come with the application of the client's own entry, places are distinct and given by the one elected leader of their term, which holds their entries as long as it leads |
| `RaftAccounts.AdvanceOrdered` | dfs/metaserver/src/simple_raft.rs:1160-1274 | every step of the cluster, complete or cut by a crash after any write, keeps these books |
| `RaftPlaces.SlotsAfter` | dfs/metaserver/src/simple_raft.rs:1689-1778 | after every step, the leader elected in the term of a place still holds its entry, as long as it leads that term |
| `RaftPlaces.LeaderExtends` | dfs/metaserver/src/simple_raft.rs:1160-1274 | a leader that goes on leading its term only appends to its log, as far as it does not compact it |
| `RaftPlaces.ReactCaught` | dfs/metaserver/src/simple_raft.rs:2430-2456 | after every reaction, whatever is committed has been applied |
| `RaftPlaces.LeadersAhead` | dfs/metaserver/src/simple_raft.rs:1689-1778 | the log of a leader reaches beyond every place given in its term, and no term has two leaders at once |
| `RaftAccounts.LedgerNeverShrinks` | dfs/metaserver/src/simple_raft.rs:1659-1778 | along every run no request, place, application or answer is ever taken back or changed |
| `RaftState.RestartReplays` | dfs/metaserver/src/simple_raft.rs:809-906 | if no crash leaves a truncation or a snapshot half done, loading the store and applying up to the same index gives back term, vote, log and application state |
| `RaftTheorems.SnapshotKeepsEntries` | dfs/metaserver/src/simple_raft.rs:1033-1097 | compaction changes no term at or above the cut and no entry above it |
| `RaftState.StateIsFold` | dfs/metaserver/src/simple_raft.rs:2430-2456 | if no crash leaves a truncation or a snapshot half done, a node stands for a full log: memory and store hold the part after the snapshot point, and the state is the fold of the commands applied |
| `RaftState.FilesAreTraced` | dfs/metaserver/src/simple_raft.rs:2994-3300 | in the same executions, a node holds at every path what tracing the applied commands back to the last one that names it finds, and if no block is brought twice, no two of its files share one |
| `RaftState.AllFaithful` | dfs/metaserver/src/simple_raft.rs:1033-1097 | in all these runs the state is the fold of the entries applied, and the stored snapshot that of the entries behind the snapshot point |
| `RaftState.ReactFaithful` | dfs/metaserver/src/simple_raft.rs:2430-2456 | a complete reaction keeps state and stored snapshot folds of the log |
| `RaftState.CrashFaithful` | dfs/metaserver/src/simple_raft.rs:809-906 | so does a crash that leaves nothing half done, followed by a restart |
| `RaftState.ReplayFolds` | dfs/metaserver/src/simple_raft.rs:2430-2456 | applying entries one after the other continues the fold |
| `RaftCommit.BestIsLargest` | dfs/metaserver/src/simple_raft.rs:2226-2280 | the descending scan finds the largest index, reported or not, that a joint majority holds |
| `RaftCommit.ScanMissesNothing` | dfs/metaserver/src/simple_raft.rs:2226-2280 | with terms that never fall, the single term check on that index loses no index that may be committed |
| `RaftCommit.TermsAlwaysRise` | dfs/metaserver/src/simple_raft.rs:2000-2138 | in every execution terms never decrease along a node's log |
| `RaftCommit.LeadersCommitAll` | dfs/metaserver/src/simple_raft.rs:2152-2292 | in every execution a leader's scan commits every index of its own term that a joint majority holds |
| `RaftHazards.HalfSnapshot` | dfs/metaserver/src/simple_raft.rs:1033-1097 | after a crash between saving snapshot_meta and snapshot_data, the restarted state is right if and only if the older snapshot data was already the present state |
| `RaftHazards.FirstSnapshotLost` | dfs/metaserver/src/simple_raft.rs:1033-1097 | counterexample family: a crash inside the first snapshot restarts with an empty state at the old applied index |
| `RaftHazards.HalfDone` | dfs/metaserver/src/simple_raft.rs:809-1097 | over all events, a crash leaves a snapshot half done if and only if it follows the first write of one, and tears the log if and only if it lies between two deletes of a truncation |
| `RaftHazards.TearsInAppend` | dfs/metaserver/src/simple_raft.rs:2000-2138 | within the handling of a message, a crash tears the log if and only if some but not all deletes are done |
| `RaftHazards.TornStore` | dfs/metaserver/src/simple_raft.rs:1013-1031 | what a crash after any number of the deletes leaves in the store |
| `RaftHazards.HalfTruncation` | dfs/metaserver/src/simple_raft.rs:1013-1031 | after a crash within the deletes that a message causes, the store holds the truncated log if and only if the log is not torn |
| `RaftHazards.TornRestart` | dfs/metaserver/src/simple_raft.rs:809-906 | the node that restarts from such a store has the log cut exactly where the message cut it |
| `RaftHazards.TornAgain` | dfs/metaserver/src/simple_raft.rs:2000-2138 | delivered again, the message gives that node the right log in memory, while the discarded entries stay in the store |
| `RaftHazards.TornComesBack` | dfs/metaserver/src/simple_raft.rs:809-906 | after a second restart the log is right if and only if the new entries leave a gap before the old ones or cover all of them; otherwise the discarded entries are back behind the new ones |
| `RaftHazards.Resurrection` | dfs/metaserver/src/simple_raft.rs:1013-1031 | what a start-up loads after such a crash and after new entries were saved: discarded entries come back behind the new ones |
| `RaftHazards.ResurrectionFree` | dfs/metaserver/src/simple_raft.rs:1013-1031 | that log is right if and only if the new entries leave a gap before the old ones or cover all of them |
| `RaftHazards.RestartAtCut` | dfs/metaserver/src/simple_raft.rs:809-906 | the node that restarts right after the cut: its log ends at the gap |
| `RaftHazards.MisledVoter` | dfs/metaserver/src/simple_raft.rs:1902-1968 | such a node refuses its vote to an outdated candidate before the second restart and grants it after |
| `RaftMishaps.HalfSnapshotBreaks` | dfs/metaserver/src/simple_raft.rs:1033-1097 | a node that crashes between the halves of a snapshot comes back at the same applied index, and in the same state if and only if the older snapshot data was that state |
| `RaftMishaps.SnapshotMishap` | dfs/metaserver/src/simple_raft.rs:1033-1097 | a run with one crash between the halves of a snapshot in which equal applied indices do not mean equal states |
| `RaftTornLog.CommittedEntryLost` | dfs/metaserver/src/simple_raft.rs:1013-1031 | a run with one crash between the deletes of a truncation in which terms fall along a log, a later leader lacks a committed entry whose client was told Ok, and two nodes apply different commands at that index and acknowledge both |
| `Quorum.MajoritiesMeet` | dfs/metaserver/src/simple_raft.rs:147-172 | two majorities of one member list share a member |
| `Quorum.ToleratesIff` | dfs/metaserver/src/simple_raft.rs:147-172 | a set decides if and only if in every member list fewer than half are missing |
| `Quorum.QuorumsMeet` | dfs/metaserver/src/simple_raft.rs:147-172 | any two sets accepted for one configuration, simple or joint, share a voting member |
| `Quorum.JointMeetsBothSides` | dfs/metaserver/src/simple_raft.rs:147-172 | a set accepted by a joint configuration meets every majority of the old list and every majority of the new list |
| `Quorum.QuorumGrows` | dfs/metaserver/src/simple_raft.rs:147-172 | acceptance survives adding servers |
| `RaftSafety.ElectionSafety` | dfs/metaserver/src/simple_raft.rs:1276-1408 | protocol level: at most one leader per term over a whole run |
| `RaftSafety.OneVotePerTerm` | dfs/metaserver/src/simple_raft.rs:1902-1968 | protocol level: one vote per server and term, also when the term was saved and the vote was not |
| `RaftSafety.LogsMatch` | dfs/metaserver/src/simple_raft.rs:2000-2151 | protocol level: equal terms at one index mean equal logs up to it |
| `RaftSafety.DecidedStays` | dfs/metaserver/src/simple_raft.rs:2226-2280 | an index acknowledged by a quorum in its own term is in every later leader's log |
| `RaftSafety.SettledAgree` | dfs/metaserver/src/simple_raft.rs:2226-2280 | two committed prefixes never disagree |
| `RaftSafety.SettledInReign` | dfs/metaserver/src/simple_raft.rs:2226-2280 | a committed prefix is in the log of every leader from its term on |
| `RaftSafety.StateMachineSafety` | dfs/metaserver/src/simple_raft.rs:2430-2456 | protocol level: no two servers, at any two moments, have different entries committed at one index |
| `RaftSafety.LeaderCompleteness` | dfs/metaserver/src/simple_raft.rs:1902-1968 | protocol level: every leader of an equal or later term holds every committed prefix |
| `RaftSafety.NextKeeps` | dfs/metaserver/src/simple_raft.rs:1900-2292 | every protocol step keeps the invariant and only adds to the history |
| `RaftSafety.RunInv` | dfs/metaserver/src/simple_raft.rs:1900-2292 | the invariant holds in every state of every run |
| `RaftSafety.RunGrows` | dfs/metaserver/src/simple_raft.rs:1900-2292 | votes, reigns and acknowledgements are never lost along a run |
| `RaftSteps.StandKeeps` | dfs/metaserver/src/simple_raft.rs:1276-1365 | standing for election keeps the invariant |
| `RaftSteps.GrantVoteKeeps` | dfs/metaserver/src/simple_raft.rs:1902-1968 | granting a vote keeps the invariant |
| `RaftSteps.GrantedVoteKeeps` | dfs/metaserver/src/simple_raft.rs:1902-1968 | the election restriction: a candidate that gets a vote holds every open index the voter acknowledged |
| `RaftSteps.RefuseKeeps` | dfs/metaserver/src/simple_raft.rs:1902-1968 | refusing a vote keeps the invariant |
| `RaftSteps.CountVoteKeeps` | dfs/metaserver/src/simple_raft.rs:1969-1999 | counting a vote keeps the invariant |
| `RaftSteps.AdoptTermKeeps` | dfs/metaserver/src/simple_raft.rs:1659-1685 | adopting a higher term keeps the invariant, with the vote cleared or, in a crash, not yet |
| `RaftSteps.RetreatKeeps` | dfs/metaserver/src/simple_raft.rs:809-906 | a restart that forgets commit index, votes and match table keeps the invariant |
| `RaftSteps.ReplicateKeeps` | dfs/metaserver/src/simple_raft.rs:1536-1585 | sending a suffix of the leader's log keeps the invariant |
| `RaftSteps.RecordMatchKeeps` | dfs/metaserver/src/simple_raft.rs:2152-2170 | noting a success reply, even a stale one that lowers the match index, keeps the invariant |
| `RaftSteps.AdvanceCommitKeeps` | dfs/metaserver/src/simple_raft.rs:2226-2280 | committing an index that a quorum holds, of the leader's own term, keeps the invariant |
| `RaftLogSteps.AscendKeeps` | dfs/metaserver/src/simple_raft.rs:1367-1408 | becoming leader, with the entry appended then, keeps the invariant |
| `RaftLogSteps.FirstLeader` | dfs/metaserver/src/simple_raft.rs:1969-1999 | a candidate with a joint majority is the first leader of its term |
| `RaftLogSteps.ProposeKeeps` | dfs/metaserver/src/simple_raft.rs:1689-1778 | appending client entries keeps the invariant |
| `RaftLogSteps.AcceptMerges` | dfs/metaserver/src/simple_raft.rs:2000-2138 | what the follower's log has in common with the sender's after the merge |
| `RaftLogSteps.AcceptSettled` | dfs/metaserver/src/simple_raft.rs:2133-2139 | the follower's new commit index is covered by the part known to agree |
| `RaftLogSteps.AcceptKeeps` | dfs/metaserver/src/simple_raft.rs:2000-2151 | accepting entries keeps the invariant |
| `RaftLogSteps.LoseSuffixKeeps` | dfs/metaserver/src/simple_raft.rs:1013-1031 | a crash after the conflicting suffix was deleted and before the new entries were saved keeps the invariant |
| `RaftProtocol.AgreeingMeans` | dfs/metaserver/src/simple_raft.rs:2045-2118 | how many of the entries agree with the log, and what follows them |
| `RaftStorage.BootRecovers` | dfs/metaserver/src/simple_raft.rs:809-906 | start-up from a durable store gives back term, vote, log and snapshot point |
| `RaftStorage.LoadEntriesAll` | dfs/metaserver/src/simple_raft.rs:809-906 | loading follows the stored keys to the first gap and finds the whole log |
| `RaftStorage.MergeOffset` | dfs/metaserver/src/simple_raft.rs:2045-2118 | merging into the compacted log is merging into the full one |
| `RaftStorage.DropsAll` | dfs/metaserver/src/simple_raft.rs:1013-1031 | a completed truncation removes every stored entry from the cut on and nothing else |
| `RaftStorage.CompactsHarmless` | dfs/metaserver/src/simple_raft.rs:1069-1075 | deletes behind a snapshot touch nothing after it |
| `RaftStorage.ApplyLogsTracks` | dfs/metaserver/src/simple_raft.rs:2430-2456 | applying catches up with the commit index and leaves the log alone |
| `RaftRefinement.StepDownSim` | dfs/metaserver/src/simple_raft.rs:1659-1685 | stepping down is protocol steps of the full-log server it stands for |
| `RaftRefinement.StartElectionSim` | dfs/metaserver/src/simple_raft.rs:1276-1365 | starting an election refines the protocol, also for a cluster of one |
| `RaftRefinement.BecomeLeaderSim` | dfs/metaserver/src/simple_raft.rs:1367-1408 | becoming leader refines the protocol; match_index may start at the snapshot point |
| `RaftRefinement.RequestVoteSim` | dfs/metaserver/src/simple_raft.rs:1902-1968 | the vote request handler refines the protocol |
| `RaftRefinement.VoteReplySim` | dfs/metaserver/src/simple_raft.rs:1969-1999 | the vote reply handler refines the protocol |
| `RaftRefinement.ReachGrows` | dfs/metaserver/src/simple_raft.rs:1900-2292 | what a reachable state has recorded, every later one still has |
| `RaftReplication.CommittedKept` | dfs/metaserver/src/simple_raft.rs:2000-2151 | whatever a server has committed is still in its log after it accepts |
| `RaftReplication.AdoptWritesStore` | dfs/metaserver/src/simple_raft.rs:928-952 | the deletes and the batch of an adoption make the store hold the merged log |
| `RaftReplication.AdoptTracks` | dfs/metaserver/src/simple_raft.rs:2045-2118 | adopting entries into the compacted log and the store follows the merge of the full log |
| `RaftReplication.AppendSim` | dfs/metaserver/src/simple_raft.rs:2000-2151 | the append handler refines the protocol |
| `RaftReplication.HeartbeatSim` | dfs/metaserver/src/simple_raft.rs:1536-1585 | the append messages of a heartbeat refine the protocol |
| `RaftReplication.BestIsHeld` | dfs/metaserver/src/simple_raft.rs:2226-2280 | what the scan finds is held by a joint majority |
| `RaftReplication.AdvanceSim` | dfs/metaserver/src/simple_raft.rs:2226-2292 | advancing the commit index and applying refines the protocol |
| `RaftReplication.AppendReplySim` | dfs/metaserver/src/simple_raft.rs:2152-2292 | the append reply handler refines the protocol |
| `RaftReplication.ClientsSim` | dfs/metaserver/src/simple_raft.rs:1689-1778 | a batch of client requests refines the protocol |
| `RaftReplication.ApplySim` | dfs/metaserver/src/simple_raft.rs:2430-2456 | applying changes nothing the protocol sees |
| `RaftReplication.SnapshotDurable` | dfs/metaserver/src/simple_raft.rs:1033-1097 | all writes of a snapshot leave a store that holds the log after the new snapshot point |
| `RaftReplication.SnapshotTracks` | dfs/metaserver/src/simple_raft.rs:1033-1097 | a snapshot leaves the full log that the node stands for unchanged |
| `RaftCrash.RestartSim` | dfs/metaserver/src/simple_raft.rs:809-906 | a restart from a recoverable store refines the protocol |
| `RaftCrash.ReactLogged` | dfs/metaserver/src/simple_raft.rs:908-952 | every reaction changes the store by exactly the writes it lists |
| `RaftCrash.ReactSim` | dfs/metaserver/src/simple_raft.rs:1689-2292 | every reaction to every event is a sequence of protocol steps |
| `RaftCrash.StartElectionCut` | dfs/metaserver/src/simple_raft.rs:1276-1311 | every crash point of an election leaves a recoverable store |
| `RaftCrash.StepDownCut` | dfs/metaserver/src/simple_raft.rs:1659-1671 | a crash between saving the term and saving the cleared vote leaves a recoverable store |
| `RaftCrash.RequestVoteCut` | dfs/metaserver/src/simple_raft.rs:1902-1968 | every crash point of a vote leaves a recoverable store |
| `RaftCrash.AppendCut` | dfs/metaserver/src/simple_raft.rs:2000-2151 | every crash point of an append that does not tear the log leaves a recoverable store |
| `RaftCrash.SnapshotCut` | dfs/metaserver/src/simple_raft.rs:1033-1097 | every crash point of a snapshot, also the one between its two halves, leaves a store from which term, vote and log can be recovered |
| `RaftCrash.ReactCut` | dfs/metaserver/src/simple_raft.rs:1689-2292 | every crash point of every reaction that does not tear the log leaves a recoverable store |
| `RaftCrash.CrashSim` | dfs/metaserver/src/simple_raft.rs:809-906 | a crash at any such point of any reaction, followed by a restart, is a sequence of protocol steps |
| `RaftReplies.ApplyLogsPending` | dfs/metaserver/src/simple_raft.rs:2430-2456 | exactly the indices that are passed stop waiting |
| `RaftReplies.ApplyLogsAnswersOnly` | dfs/metaserver/src/simple_raft.rs:2430-2456 | only whoever waits at a passed index gets an answer |
| `RaftReplies.ReactApplies` | dfs/metaserver/src/simple_raft.rs:2430-2456 | a reaction applies the next committed entries of the resulting log, in order and each once, and the state is what they make of the state before |
| `RaftReplies.ReactAnswers` | dfs/metaserver/src/simple_raft.rs:1659-1778 | only whoever waits is answered, positively only after its index was applied, and the clients a reaction turns away are refused |
| `RaftReplies.ReactServes` | dfs/metaserver/src/simple_raft.rs:1659-1778 | over every reaction, everybody who waits still waits or is answered, and a positive answer comes with the application at its index |
| `RaftReplies.ClientsLog` | dfs/metaserver/src/simple_raft.rs:1689-1778 | a leader's batch ends up, in order, at the end of its log |
| `RaftExplained.EntrenchedOnce` | dfs/metaserver/src/simple_raft.rs:2226-2280 | no two entries are committed for good at one index |
| `RaftExplained.AdvanceExplained` | dfs/metaserver/src/simple_raft.rs:1160-1274 | every step of an execution, complete or cut by a crash, keeps the explanation by the protocol and the ledger of requests |
| `RaftExplained.ExecutionExplained` | dfs/metaserver/src/simple_raft.rs:1160-1274 | every state of every execution is explained by a reachable state of the protocol |
| `RaftServer.Server.constructor` | dfs/metaserver/src/simple_raft.rs:669-781 | starts with what the store holds, as `Boot` says |
| `RaftServer.Server.LoadLog` | dfs/metaserver/src/simple_raft.rs:873-897 | reads entries from the snapshot point to the first gap |
| `RaftServer.Server.DeleteLogEntriesFrom` | dfs/metaserver/src/simple_raft.rs:1013-1031 | performs exactly the deletes `Drops` lists, in order |
| `RaftServer.Server.ApplyLogs` | dfs/metaserver/src/simple_raft.rs:2430-2456 | the loop does what `RaftNode.ApplyLogs` says: state, table of waiting clients, answers |
| `RaftServer.Server.StepDownToFollower` | dfs/metaserver/src/simple_raft.rs:1659-1685 | new term saved before the cleared vote; a leader refuses all who wait |
| `RaftServer.Server.CommitIfAlone` | dfs/metaserver/src/simple_raft.rs:1399-1407 | a cluster of one commits everything it has saved |
| `RaftServer.Server.BecomeLeader` | dfs/metaserver/src/simple_raft.rs:1367-1408 | appends and saves the entry of the new term, resets both peer tables |
| `RaftServer.Server.StartElection` | dfs/metaserver/src/simple_raft.rs:1276-1365 | term and vote saved in that order; asks all peers or takes office at once |
| `RaftServer.Server.SaveLogEntriesBatch` | dfs/metaserver/src/simple_raft.rs:938-952 | one atomic batch |
| `RaftServer.Server.TakeEntries` | dfs/metaserver/src/simple_raft.rs:2045-2069 | entry by entry: cut at the first conflict, collect what is new |
| `RaftServer.Server.AppendAtSnapshot` | dfs/metaserver/src/simple_raft.rs:2028-2070 | the branch for a message that builds on the snapshot point leaves the merged log |
| `RaftServer.Server.AppendAfterSnapshot` | dfs/metaserver/src/simple_raft.rs:2077-2118 | the branch for later entries, cutting first and appending then, leaves the merged log |
| `RaftServer.Server.Accept` | dfs/metaserver/src/simple_raft.rs:2018-2139 | merges the entries and follows the leader's commit index |
| `RaftServer.Server.AppendEntries` | dfs/metaserver/src/simple_raft.rs:2000-2151 | the whole arm: stale terms, mismatches with their hint, acceptance |
| `RaftServer.Server.RequestVoteArm` | dfs/metaserver/src/simple_raft.rs:1902-1968 | the whole arm, with the writes in order; one answer, a grant if and only if one is due, and then the vote is stored |
| `RaftServer.Server.VoteReplyArm` | dfs/metaserver/src/simple_raft.rs:1969-1999 | counts the vote and takes office with a joint majority |
| `RaftServer.Server.MajorityMatch` | dfs/metaserver/src/simple_raft.rs:2246-2264 | the descending loop returns the largest reported index that a joint majority holds |
| `RaftServer.Server.AdvanceCommit` | dfs/metaserver/src/simple_raft.rs:2226-2292 | commits that index if its term is the leader's own |
| `RaftServer.Server.AppendReplyArm` | dfs/metaserver/src/simple_raft.rs:2152-2292 | records the reply, advances the commit index, applies |
| `RaftServer.Server.AppendRequests` | dfs/metaserver/src/simple_raft.rs:1722-1738 | one entry and one waiting client per request, numbered consecutively |
| `RaftServer.Server.ClientBatch` | dfs/metaserver/src/simple_raft.rs:1689-1778 | a leader saves the batch and lets the clients wait; everybody else refuses |
| `RaftServer.Server.CreateSnapshot` | dfs/metaserver/src/simple_raft.rs:1033-1097 | saves both halves, deletes behind them, cuts the log in memory |
| `RaftServer.Server.SendHeartbeats` | dfs/metaserver/src/simple_raft.rs:1536-1585 | sends each peer everything after its next index |
| `RaftServer.Server.HandleRpc` | dfs/metaserver/src/simple_raft.rs:1900-2292 | dispatches to the arms |
| `RaftServer.Server.React` | dfs/metaserver/src/simple_raft.rs:1160-1274 | one event: the object does what `RaftNode.React` says, no more and no less |
| `RaftServer.PushedIsMerge` | dfs/metaserver/src/simple_raft.rs:2077-2118 | cutting first and appending then gives the same log as going entry by entry |
| `RaftServer.FirstIsBest` | dfs/metaserver/src/simple_raft.rs:2246-2264 | the first hit of a descending scan is the largest index held |
| `Checker.CheckLinearizability` | dfs/client/src/checker.rs:186-243 | on well-formed histories the answer is yes if and only if every register that no rename touches can be arranged and what renames link is linearizable; then one total order of all operations respects real time, and every observed result is possible in it |
| `Checker.RenameKeysMean` | dfs/client/src/checker.rs:188-197 | the linked keys are exactly the sources and destinations of renames |
| `Checker.AmbiguousCountMeans` | dfs/client/src/checker.rs:415-421 | the count is the number of operations that never returned, failed, or have an unknown outcome |
| `Checker.CheckRenameLinked` | dfs/client/src/checker.rs:390-446 | accepts exactly the linearizable histories; with more ambiguous operations than the limit, exactly those that some order explains without leaving any ambiguous operation out |
| `Checker.CountAnyOrder` | dfs/client/src/checker.rs:415-421 | how many operations are ambiguous does not depend on sorting them |
| `Checker.SimplePart` | dfs/client/src/checker.rs:186-243 | registers that no rename links are explained one after the other and put together |
| `Checker.Together` | dfs/client/src/checker.rs:186-243 | the simple part and the linked part combine into one order of the whole history |
| `Checker.GroupByKey` | dfs/client/src/checker.rs:218-224 | groups the simple operations by key |
| `Checker.CheckGroups` | dfs/client/src/checker.rs:225-229 | accepts exactly if every group is accepted |
| `Checker.SplitHistory` | dfs/client/src/checker.rs:199-214 | separates what renames link from the rest |
| `CheckerModel.TimelyIsRealTime` | dfs/client/src/checker.rs:452-556 | instants inside the intervals, in order, respect real time |
| `CheckerModel.StepLocal` | dfs/client/src/checker.rs:560-678 | an operation looks at and changes only the keys it touches |
| `CheckerModel.MergeRun` | dfs/client/src/checker.rs:186-243 | merged by instant, orders over disjoint keys each see the state they saw alone |
| `CheckerModel.MergeExplains` | dfs/client/src/checker.rs:186-243 | explanations of histories over disjoint keys merge into one |
| `CheckerSearch.Search.constructor` | dfs/client/src/checker.rs:390-446 | all operations remain, none is placed |
| `CheckerSearch.Search.TryLinearize` | dfs/client/src/checker.rs:452-556 | terminates; restores both lists whenever it answers no; on well-formed histories it answers yes if and only if some order of the remaining operations respects real time and makes every result possible |
| `CheckerSearch.Search.TryFirst` | dfs/client/src/checker.rs:521-553 | tries one operation first, applied or skipped when ambiguous, and undoes it |
| `CheckerSearch.Search.TryAll` | dfs/client/src/checker.rs:494-519 | the branch without candidates, reproduced as written: tries everything that remains, restores both lists when it answers no |
| `CheckerSearch.Search.MinReturn` | dfs/client/src/checker.rs:474-485 | the earliest return among what remains |
| `CheckerSearch.Search.Candidates` | dfs/client/src/checker.rs:487-492 | exactly what was called no later than that |
| `CheckerSearch.FirstChoice` | dfs/client/src/checker.rs:452-556 | an order exists if and only if one exists for some first choice |
| `CheckerSearch.SomeoneReady` | dfs/client/src/checker.rs:487-519 | on well-formed histories some operation is always ready, so the branch without candidates is never taken |
| `CheckerSearch.PlaceTimely` | dfs/client/src/checker.rs:452-556 | a schedule found has instants that rise and lie inside the intervals |
| `CheckerSearch.PlaceRuns` | dfs/client/src/checker.rs:452-556 | a schedule found explains exactly what remained |
| `CheckerSearch.ScheduleExists` | dfs/client/src/checker.rs:452-556 | every order that explains the operations and respects real time is found, and with the limit every one that leaves nothing ambiguous out |
| `CheckerSearch.PlaceApplied` | dfs/client/src/checker.rs:521-553 | with the limit, a schedule found leaves nothing ambiguous out |
| `CheckerRegister.CheckSingleRegister` | dfs/client/src/checker.rs:260-378 | accepts exactly if every completed read has a visible value |
| `CheckerRegister.FindVisible` | dfs/client/src/checker.rs:339-363 | finds a value whose visibility meets the interval of the read, if there is one |
| `CheckerRegister.SplitOps` | dfs/client/src/checker.rs:274-309 | separates reads from writes at their effect times |
| `CheckerRegister.RegisterSound` | dfs/client/src/checker.rs:260-378 | acceptance gives an order of all operations on the key, each at an instant of its interval, ties included, in which every read sees the latest write |
| `CheckerExact.AcceptsIff` | dfs/client/src/checker.rs:260-378 | the single-register test accepts exactly the histories that an order explains in which writes happen at their effect times, those at one instant by call, and no read comes before a write that had taken effect when it was called |
| `CheckerExact.TimelineSources` | dfs/client/src/checker.rs:276-318 | the timeline of values is that of the writes, stably sorted by call and then by effect time |
| `Sorting.SortByStable` | dfs/client/src/checker.rs:274-318 | sorting keeps the order of elements with equal keys |
| `CheckerModel.RunMeans` | dfs/client/src/checker.rs:560-678 | going through an order succeeds if and only if every read returned what its key holds, every successful rename found its source, and what was not found is not there, where keys hold what tracing back to the latest operation that changed them gives |
| `CheckerModel.StepMeans` | dfs/client/src/checker.rs:560-678 | the same for one operation, with the state it leaves |
| `CheckerSearch.SchedulableMeans` | dfs/client/src/checker.rs:452-556 | a schedule of choices exists if and only if some order in real time makes every result possible |
| `MasterFiles.PlayedTraced` | dfs/metaserver/src/simple_raft.rs:2994-3300 | after any run of commands, what is at a path is what tracing back to the last command that names it gives |
| `MasterFiles.EffectAt` | dfs/metaserver/src/simple_raft.rs:2994-3300 | what each command leaves at each path, from what was there and at the source of a rename |
| `MasterFiles.OnlyNamed` | dfs/metaserver/src/simple_raft.rs:2994-3300 | a command changes only the paths and records it names |
| `MasterFiles.RenameEffect` | dfs/metaserver/src/simple_raft.rs:3062-3078 | a rename removes the source and gives the destination every field of it but the path |
| `MasterFiles.RenameBack` | dfs/metaserver/src/simple_raft.rs:3062-3078 | renaming to a free path and back changes nothing |
| `MasterFiles.CreateEffect` | dfs/metaserver/src/simple_raft.rs:3007-3028 | a new file is empty, with the coding asked for |
| `MasterFiles.AllocateEffect` | dfs/metaserver/src/simple_raft.rs:3034-3055 | a new block goes to the end of the file and is coded like it |
| `MasterFiles.TransferEffect` | dfs/metaserver/src/simple_raft.rs:3106-3137 | a transaction creates a file only where there is none |
| `MasterFiles.IngestEffect` | dfs/metaserver/src/simple_raft.rs:3176-3182 | of several files with one path in a batch the last one stays; other paths are unaffected |
| `MasterFiles.SplitEffect` | dfs/metaserver/src/simple_raft.rs:3148-3167 | a shard split leaves exactly the files below the split key |
| `MasterFiles.CompleteEffect` | dfs/metaserver/src/simple_raft.rs:3187-3248 | completing a file keeps its blocks and their places; sizes and checksums are as last reported, and without reports the block sizes add up to the file size |
| `MasterFiles.SpreadTotal` | dfs/metaserver/src/simple_raft.rs:3217-3236 | spreading a size over blocks loses nothing of it |
| `MasterFiles.RecordEffect` | dfs/metaserver/src/simple_raft.rs:3079-3147 | what each command does to the transaction record it names |
| `MasterFiles.BlockComes` | dfs/metaserver/src/simple_raft.rs:2994-3300 | a block listed under a path after a command was brought by it, or was listed there or at the renamed path before |
| `MasterFiles.OwnersKept` | dfs/metaserver/src/simple_raft.rs:2994-3300 | no command makes two files share a block unless it brings one that another file has; a rename never does |
| `MasterFiles.BlocksOwnedOnce` | dfs/metaserver/src/simple_raft.rs:2994-3300 | if no block id is brought twice, no two files ever share a block, whatever is renamed, deleted, completed or moved in between |
| `TwoPhase.NothingLost` | dfs/metaserver/src/master.rs:2728-3016 | under every interleaving, if nobody else touches the destination, a missing source implies that the destination has its size, blocks, checksum, times, coding and access fields under the new path; a source that is there is unchanged |
| `TwoPhase.LostIff` | dfs/metaserver/src/master.rs:2728-3223 | when others may do anything to the destination, a missing source still means that the create was applied; the file then never was at the destination if and only if something else was there whenever the create was applied and nobody else put it there |
| `TwoPhase.RacingRenames` | dfs/metaserver/src/master.rs:3026-3223 | from every start with a free destination there is such an execution: another rename creates its file between prepare and commit, success is reported, the source is gone, and the file never was at the destination |
| `TwoPhase.NothingOverwritten` | dfs/metaserver/src/master.rs:3026-3223 | a destination that existed is never changed, the source is kept, and success is not reported |
| `TwoPhase.SuccessMeansCreated` | dfs/metaserver/src/master.rs:2809-3016 | once success is reported, the destination exists with every field of the source but the path, and stays |
| `TwoPhase.RenameSucceeds` | dfs/metaserver/src/master.rs:2809-3016 | every rename to a free destination can succeed |
| `TwoPhase.RecoverySucceeds` | dfs/metaserver/src/master.rs:968-1319 | a rename whose handler stopped while it waited for the participant can be finished by recovery, and both shards forget the transaction |
| `TwoPhase.NextKeeps` | dfs/metaserver/src/master.rs:968-1319 | every step of handler, participant, cleanup and recovery keeps the invariant, whatever others do to the destination |
| `TwoPhase.FilesKept` | dfs/metaserver/src/master.rs:3026-3223 | when others leave the destination alone, every step keeps it right: unchanged if it existed, the moved metadata once the create was applied |
| `TwoPhase.NeverThereIff` | dfs/metaserver/src/simple_raft.rs:3089-3137 | over every execution with rivals, what never was at the destination was blocked by something else at every create |
| `TwoPhase.ArrivesBy` | dfs/metaserver/src/simple_raft.rs:3089-3137 | a step brings the moved metadata to the destination if and only if it applies the create and nothing else is there, unless it is somebody else's step |
| `TwoPhase.RunInv` | dfs/metaserver/src/master.rs:968-1319 | the invariant holds in every state of every execution, with rivals at the destination or without |
| `TwoPhase.ExecutionInv` | dfs/metaserver/src/master.rs:968-1319 | and without rivals the destination is right in every state |
| `TwoPhase.HandlerKeeps` | dfs/metaserver/src/master.rs:2809-3016 | every step of the request handler keeps the invariant |
| `TwoPhase.PrepareKeeps` | dfs/metaserver/src/master.rs:3026-3115 | preparing keeps the invariant, also when repeated |
| `TwoPhase.CommitKeeps` | dfs/metaserver/src/master.rs:3131-3223 | a commit request keeps the invariant, also one after an abort |
| `TwoPhase.CleanupKeeps` | dfs/metaserver/src/master.rs:968-1162 | the participant's cleanup of stale records keeps the invariant |
| `TwoPhase.CoordinatorKeeps` | dfs/metaserver/src/master.rs:968-1162 | the coordinator's cleanup of stale records keeps the invariant |
| `TwoPhase.RecoveryKeeps` | dfs/metaserver/src/master.rs:1171-1319 | the recovery of unacknowledged transactions keeps the invariant |
| `TwoPhase.InquireKeeps` | dfs/metaserver/src/master.rs:3276-3305 | answering an inquiry keeps the invariant |
| `TwoPhase.ApplyKeeps` | dfs/metaserver/src/simple_raft.rs:3079-3147 | applying any proposed transaction command, late or again, keeps the invariant |
| `ShardTable.EveryKeyOwned` | dfs/common/src/sharding.rs:70-245 | after any run of adds, splits and merges in which some shard was added and none merges the last shard into itself, every key up to the last boundary has exactly one owner, registered with peers |
| `ShardTable.RunsOkIff` | dfs/common/src/sharding.rs:70-245 | the table is well formed throughout a run if and only if no change merges the shard with the last boundary into itself |
| `ShardTable.ChangeKeepsIff` | dfs/common/src/sharding.rs:70-245 | a change keeps the table well formed if and only if it is not such a merge |
| `ShardTable.StrandedRun` | dfs/common/src/sharding.rs:212-245 | counterexample: the only shard, merged into itself, still owns every key and is not registered |
| `ShardTable.OccupiedIff` | dfs/common/src/sharding.rs:70-245 | after such a run there are boundaries if and only if some shard was added |
| `ShardTable.OwnerRegistered` | dfs/common/src/sharding.rs:157-177 | the owner of a key is a registered shard |
| `ShardTable.SplitMoves` | dfs/common/src/sharding.rs:180-208 | a split registers the new shard and moves exactly the keys after the previous boundary, up to the split key |
| `ShardTable.AddMoves` | dfs/common/src/sharding.rs:94-111 | the first range shard gets every key up to the last boundary; the second the keys up to /m, while the first keeps the rest; a later one the keys after the previous boundary up to z- and its name, and no other key moves |
| `ShardTable.SecondKeepsRest` | dfs/common/src/sharding.rs:97-105 | in a well-formed map the second shard takes only the keys up to /m away |
| `ShardTable.RemoveGives` | dfs/common/src/sharding.rs:142-153 | removing a range shard leaves other keys where they are and gives its own to the next boundary of another shard, or to nobody |
| `ShardTable.MergeIntoNext` | dfs/common/src/sharding.rs:212-245 | merging a shard into its right neighbour moves exactly its keys |
| `ShardTable.MergeLast` | dfs/common/src/sharding.rs:212-245 | merging the last shard into its left neighbour moves exactly its keys |
| `ShardTable.MergeExactIffAdjacent` | dfs/common/src/sharding.rs:212-245 | a merge moves exactly the victim's keys to the retained shard if and only if the two are adjacent |
| `ShardTable.MergeUndoesSplit` | dfs/common/src/sharding.rs:180-245 | merging the shard that a split made gives back the table before the split |
| `ShardTable.AddMovesToNew` | dfs/common/src/sharding.rs:85-93 | adding a shard to the ring changes owners only to the new shard, collisions and wrap-around included |
| `ShardTable.RemoveMovesOwn` | dfs/common/src/sharding.rs:131-141 | removing a shard from the ring changes only keys it owned, and none stay with it |
| `ShardTable.RemoveUndoesAdd` | dfs/common/src/sharding.rs:70-155 | removing undoes adding if and only if the new shard had taken over no ring point of another |
| `ShardMap.LeftNeighborMerges` | dfs/common/src/sharding.rs:212-273 | merging what `get_neighbors` gives as left neighbour of a shard into it moves exactly that neighbour's keys |
| `ShardMap.ShardMap.constructor` | dfs/common/src/sharding.rs:47-68 | an empty map of either strategy |
| `ShardMap.ShardMap.RingPoints` | dfs/common/src/sharding.rs:85-93 | exactly the hashes of the name, a colon and each number below the number of virtual nodes |
| `ShardMap.ShardMap.AddShard` | dfs/common/src/sharding.rs:70-112 | a known shard only gets new peers; a new range shard gets the keys `AddMoves` says and nobody else loses any; on the ring it serves all its points and other points keep their shard |
| `ShardMap.ShardMap.RemoveShard` | dfs/common/src/sharding.rs:123-155 | the object loses exactly the shard's points or boundaries |
| `ShardMap.ShardMap.GetShard` | dfs/common/src/sharding.rs:157-177 | the owner: the first boundary or ring point not below, with wrap-around on the ring |
| `ShardMap.ShardMap.SplitShard` | dfs/common/src/sharding.rs:180-208 | both outcomes: refused without change, or the table split |
| `ShardMap.ShardMap.FindBoundary` | dfs/common/src/sharding.rs:218-222 | the first boundary of a shard |
| `ShardMap.ShardMap.MergeShards` | dfs/common/src/sharding.rs:212-245 | both outcomes: refused without change, or the table merged |
| `ShardMap.ShardMap.GetNeighbors` | dfs/common/src/sharding.rs:260-273 | exactly the shards right before and right after |
| `StringOrder.FindFirst` | dfs/common/src/sharding.rs:157-177 | the first of the keys that is not below a given one, if any |
| `Placement.SelectServers` | dfs/metaserver/src/master.rs:378-432 | picks min(n, servers) servers, each at most once, over min(n, racks) racks, from each rack a prefix by free space; rack counts differ by more than one only when the smaller rack is used up, racks with a better best server come first, and the first server picked has the most space of all |
| `Placement.RoundRobin` | dfs/metaserver/src/master.rs:409-429 | the nested loop ends exactly after some full rounds and part of the next: which servers, in which order, and how many per rack |
| `Placement.GroupByRack` | dfs/metaserver/src/master.rs:383-396 | every server is in the bucket of its rack, in order |
| `Placement.RackList` | dfs/metaserver/src/master.rs:398-407 | every rack once, in descending order of its best server, ties in any order |
| `Placement.TurnBalanced` | dfs/metaserver/src/master.rs:409-429 | no rack is ahead of another by more than one unless the other is used up |
| `Placement.TurnCovers` | dfs/metaserver/src/master.rs:409-429 | as many racks are used as possible |
| `Placement.OnRackSorted` | dfs/metaserver/src/master.rs:383-396 | the servers of a rack come with the most free space first |
| `Placement.AddressesDistinct` | dfs/metaserver/src/master.rs:378-432 | distinct servers in, distinct addresses out |
| `Placement.SameRack` | dfs/metaserver/src/master.rs:383-396 | servers without a rack each count as a rack of their own |
| `RangeRead.ReadFileRange` | dfs/client/src/mod.rs:755-843 | it fails exactly when the offset is past the end or a touched block is unreadable; otherwise it is the slice of the file if and only if length is positive or the offset is at a block start or inside an erasure-coded block, and for length 0 inside a plain block it is the rest of that block; no sub-read of a positive range has length 0 |
| `RangeRead.GetFileContent` | dfs/client/src/mod.rs:854-916 | fails exactly when a block is unreadable, otherwise the file as written |
| `RangeRead.ReadPart` | dfs/client/src/mod.rs:815-832 | what one sub-read returns; length 0 on a plain block is the rest of the block |
| `RangeRead.CodedHolds` | dfs/client/src/mod.rs:1109-1165 | an erasure-coded block of which k shards can be fetched reads as it was written |
| `RangeRead.EmptyRangeInside` | dfs/client/src/mod.rs:805-832 | an empty range strictly inside a plain block is not cut cleanly, and the value read is the rest of the block, which is not empty |
| `RangeRead.OneBlockInside` | dfs/client/src/mod.rs:805-832 | there are such files and offsets |
| `RangeRead.ServeRange` | dfs/chunkserver/src/chunkserver.rs:847-863 | a chunk server answers exactly offsets inside the block, with the bytes from there on, as many as asked for and there are; length 0 asks for all |
| `Erasure.ReadUndoesEncode` | dfs/client/src/mod.rs:1131-1165 | whatever shards survive, reading gives the data back if at least k do and fails otherwise |
| `Erasure.CopiesRestore` | dfs/common/src/erasure.rs:7-50 | what is assumed of the code can be met: copies of one data shard do |
| `Erasure.DecodeUndoesEncode` | dfs/common/src/erasure.rs:7-50 | from any k surviving shards, decoding gives back the data without padding |
| `Erasure.DataShards` | dfs/common/src/erasure.rs:7-24 | padded and cut, the data fills k shards of equal length, and joined and truncated they are the data again |
| `Erasure.ShardLen` | dfs/common/src/erasure.rs:52-59 | the least length that holds the data |
| `Erasure.Decode` | dfs/common/src/erasure.rs:30-50 | the loop computes `Decoded`, with every error case |
| `Erasure.FillSlots` | dfs/client/src/mod.rs:1131-1141 | one slot per shard, extra locations ignored, and the count is right |
| `Erasure.ReadEcBlock` | dfs/client/src/mod.rs:1109-1165 | fast path, degraded path and failure as `Assembled` says |
| `Checksums.Storage.WriteBlock` | dfs/chunkserver/src/chunkserver.rs:192-209 | block and checksum file are stored, nothing else changes, and full verification will accept |
| `Checksums.Storage.VerifyBlock` | dfs/chunkserver/src/chunkserver.rs:238-292 | accepts exactly if the checksum file, hot or cold, matches the data; which error is which |
| `Checksums.Storage.VerifyPartialRead` | dfs/chunkserver/src/chunkserver.rs:296-351 | accepts exactly if every checksummed chunk of the window matches; the cursor stays at chunk i |
| `Checksums.WholeThenWindow` | dfs/chunkserver/src/chunkserver.rs:296-351 | a block that is accepted whole is accepted in every window |
| `Checksums.WindowThenWhole` | dfs/chunkserver/src/chunkserver.rs:238-351 | full verification is the window of the whole block plus the right number of checksums |
| `Checksums.WrittenAccepted` | dfs/chunkserver/src/chunkserver.rs:182-209 | what has just been written is accepted |
| `Checksums.ParseUndoesWrite` | dfs/chunkserver/src/chunkserver.rs:192-209 | parsing undoes writing the big-endian words |
| `Checksums.WriteUndoesParse` | dfs/chunkserver/src/chunkserver.rs:262-270 | parsing loses at most the three bytes that make no word |
| `Checksums.CalculateChecksums` | dfs/chunkserver/src/chunkserver.rs:182-190 | one checksum per chunk |
| `Checksums.SumAt` | dfs/chunkserver/src/chunkserver.rs:182-190 | which bytes the i-th checksum covers |
| `Checksums.WindowMeans` | dfs/chunkserver/src/chunkserver.rs:318-332 | the chunks that a partial read verifies are exactly those that hold one of its bytes |
| `Checksums.BigEndianOrders` | dfs/chunkserver/src/chunkserver.rs:192-209 | words are written with the most significant byte first |
| `Listing.PagingIsListing` | dfs/s3_server/src/handlers.rs:1536-1688 | following only the continuation token with max-keys at least 1 reaches a last page within as many pages as files plus one; contents and common prefixes of the pages join to exactly those of the unlimited listing, in order |
| `Listing.NoneBetween` | dfs/s3_server/src/handlers.rs:1620-1644 | no file that is listed lies between two files folded into one common prefix, so no common prefix is on two pages |
| `Listing.PagingEndsIff` | dfs/s3_server/src/handlers.rs:1549-1591 | paging ends if and only if it is not the case that pages hold one key, there are several files and the first is listed under the empty key |
| `Listing.StuckForever` | dfs/s3_server/src/handlers.rs:1549-1591 | otherwise every page is the first page again |
| `Listing.StartAfterRepeats` | dfs/s3_server/src/handlers.rs:1553-1568 | with start-after given, the token is ignored and every page is the first one |
| `Listing.KeysExact` | dfs/s3_server/src/handlers.rs:1592-1676 | the unlimited listing has exactly the keys of the listed files, each once and in order |
| `Listing.PrefixesExact` | dfs/s3_server/src/handlers.rs:1620-1644 | common prefixes are exactly those that files are folded into, each once |
| `ShardMap.PointsMean` | dfs/common/src/sharding.rs:85-93 | a shard has the points of its virtual nodes and no others |
| `ShardMap.DecimalMeans` | dfs/common/src/sharding.rs:85-93 | numbers are written in decimal without needless zeros |
| `Listing.ClassifyMeans` | dfs/s3_server/src/handlers.rs:1591-1644 | exactly the files of the bucket under the prefix that have no reserved ending show; they are listed, or folded up to the first delimiter after the prefix |
| `Listing.InternalMeans` | dfs/s3_server/src/handlers.rs:1591-1644 | a file is internal exactly if it is some name followed by one of the three reserved endings |
| `Listing.FindIsFirst` | dfs/s3_server/src/handlers.rs:1627 | the search finds the first occurrence, and fails only if there is none |
| `Listing.OnePageListsAll` | dfs/s3_server/src/handlers.rs:1569-1591 | a page with room for every file is the unlimited listing |
| `Listing.TruncatedPage` | dfs/s3_server/src/handlers.rs:1574-1591 | a page cut short is full and moves on |
| `Listing.EndIsFirst` | dfs/s3_server/src/handlers.rs:1574-1591 | a page ends at the first point where it has enough keys |
| `Listing.NextStart` | dfs/s3_server/src/handlers.rs:1549-1591 | the next page starts exactly where this one ended |
| `Listing.ListObjectsV2` | dfs/s3_server/src/handlers.rs:1536-1688 | the handler's loop computes `PageOf` for the sorted files of the bucket |
| `Listing.OneOrder` | dfs/s3_server/src/handlers.rs:1543-1548 | the sorted files are determined by which files there are |

## Left out

- Sending and installing snapshots between nodes: append messages are sent only to peers whose next index lies after the snapshot point.
- RaftProgress.NeverStuck: unless all nodes are up, those that are must not have compacted their logs, because what was compacted reaches a peer only by a snapshot.
- Membership changes, promotion of non-voting members, leader transfer and TimeoutNow: only the quorum facts about joint configurations are proved.
- ReadIndex: reads are not modelled, and no claim about their linearizability is made.
- Commands that read the wall clock (`RegisterMaster`, `ShardHeartbeat`), commands of the configuration server, and master commands that touch neither the file table nor the transaction records (chunk server registration, shuffling).
- Failing store writes, the rollback after one, and undecodable store contents.
- The leader hint that goes with a refusal, metrics, log messages and the backup of snapshots.
- Timers: any election timeout, heartbeat, apply or snapshot tick may happen at any time; a tick that does several of these is several events, and so is the heartbeat at the end of a client batch.
- RaftCrash.AppendCut: excludes crash points between two deletes of one truncation, because the property is false there (`RaftHazards.HalfTruncation`).
- RaftCrash.ReactCut: excludes the same crash points; `RaftHazards.HalfDone` says which those are.
- RaftCrash.CrashSim: excludes the same crash points.
- RaftServer.Server.React: requires that slot 0 carries the term of the snapshot point, which `RaftStorage.Tracks` contains and every execution keeps (`RaftExplained.ExecutionExplained`).
- Checker.CheckLinearizability: on a register that no rename touches, yes is not claimed for every linearizable history, because that test fixes the instant of every write; `CheckerExact.AcceptsIff` says exactly which histories it accepts.
- Parsing of histories, and the text of the violations that the checker reports.
- TwoPhase.NothingLost: assumes that no other command touches the two paths, because the property is false otherwise; `TwoPhase.LostIff` has the exact condition. That nobody else touches the source path is assumed throughout.
- The transport of transaction messages; each shard is one replicated state, which the Raft part justifies.
- `rebalance_boundary`.
- The hash function, the CRC and the arithmetic of the Reed-Solomon code are parameters; of the code it is assumed that it is systematic and that any k shards determine all, which `Erasure.CopiesRestore` shows can be met.
- Placement.RackList: racks with equally good best servers come in an unspecified order, as in the hash map of the program.
- Hedged and concurrent block fetching: what the locations of a block return is an input. The block cache is left out.
- Checksums.Storage.VerifyPartialRead: a chunk offset beyond the end of the file, where the program's subtraction wraps around or stops it, counts as a failed read.
- Unsigned 64-bit overflow of offsets and lengths in range reads.
- Metadata of listed objects, multipart uploads, XML, and version 1 of the listing.
- Listing.ListObjectsV2: with max-keys below 1 and nothing before the first file, where the program's subtraction wraps around or stops it, the page has no token.
- Networking, TLS, HTTP and gRPC, tiering, balancing, healing, authentication and auditing.

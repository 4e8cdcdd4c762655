# RaftKV: a verified model

RaftKV is a replicated key-value store on a hand-written Raft. This project models its consensus core,
its write-ahead log and its state machine, and proves what the design promises over whole runs of every
cluster, for any number of servers: nothing that was acknowledged is lost or contradicted, and from every
state any majority can go on to acknowledge new commands. Some promises fail after certain restarts; for
these there are runs that show it and the exact conditions under which a restart is harmless.

## How the model is built

- **Nodes.** Each critical section under a node's mutex is one step. `NodeSpec` says what each section
  does, as a function from state to state. `Nodes.Node` and `RaftLogs.RaftLog` are the same sections as
  imperative code with the source's loops and in-place updates; each method is proved to change the
  state exactly as the function says. The cluster uses the same functions. `Conduct` says, for every state
  and message, what these functions come to: which term and role the node is in afterwards, what it
  answers, what it records and what it leaves alone.
- **Cluster.** `Cluster` has nodes and the set of all messages ever sent. A message is never removed, so
  it may be lost, delayed, reordered or delivered again; a reply carries the request it answers.
  An election may start in any role, and a heartbeat captures term and commit index in one critical
  section and log and nextIndex in a later one, with no check of the role in between, as in the source.
  A crash may happen between any two writes to the write-ahead log or inside one, leaving any number of
  bytes of the record; the node restarts from the records that replay finds. `IsAnyRun` are all runs. The
  election theorems (`VoteSafety`) are about `IsVoteRun`: no restart makes a server betray a vote that it
  has recorded. "Every run" in `Safety`, `ReplicationSafety`, `KvSafety`, `Rollback` and `ClusterProof`
  means `IsRun`: no restart forgets a vote, a term or an entry, or brings back a truncated log.
- **Messages and terms.** `Messages`, `Terms` and `Elections` are about all runs (`IsAnyRun`): what each
  message tells of its sender, where terms come from, how votes are counted, and that a campaign which a
  later term has ended never resumes.
- **Going on.** `Availability` continues an arbitrary run step by step, with a majority of the servers only:
  one whose log is behind none of theirs is elected, brings the others up to date, and answers a client.
- **Proof.** `History` is what a run leaves behind: ballots, elections, the log of each term's leader,
  acknowledgements and commit decisions. It occurs only in proofs. `ClusterProof.RunHasChronicle` gives
  every run one history per state, each growing out of the one before; the theorems about two moments
  of a run compare both with the later history. Leader completeness goes by induction over the order in
  which leaders were elected.
- **Write-ahead log.** `WalStream` is about files of frames in general, `WalFrames` about the bytes of one
  frame, `Wal` holds the object with its byte buffer and its reading loop, `WalLives` follows the files
  over many lives of a process (open, replay, appends, a crash at any byte), and `WalProof` joins them:
  what was written whole is what replay finds, unless something was written behind stray bytes.
  `NodeDisks` ties the cluster to the bytes: the files of every node in every run tell exactly what the
  model lets its restart recover. Checksum and JSON are parameters.

## What turned out not to hold

Replay leaves one to seven bytes of a torn record in place, and the next replay cuts off everything written
behind them; and no record tells of a truncation by a conflict. So a restart may forget votes, terms or
entries, or bring back a truncated log. For each of the four there is a run in which only that happens and
two nodes commit different entries at index 1:

- **Votes.** `TornVotes.TwoLeaders`: a voter votes twice in one term, and the term has two leaders;
  `TornVotes.CommitsForgotten`: both commit.
- **Terms.** `LostTerms.CompletenessForgotten`: a heartbeat begun in term 1 and continued in term 3 gives a
  server of term 1 an entry of term 3. If it then forgets that it has been in term 3, a leader of term 2
  makes it drop the entry, although a majority with it has committed it. This takes five servers.
- **Entries.** `LostEntries.CompletenessLost`: a server forgets an entry that it has acknowledged.
- **Truncations.** `Forgotten.MatchingBroken`, `Forgotten.CompletenessBroken`, `Forgotten.CommitsBroken`: a
  replaced entry comes back.

The conditions are exact in three ways. Over all runs of all clusters, elections are safe if and only if no
vote may be forgotten (`Guards.ElectionSafetyIff`), and commits if and only if none of the four may happen
(`Guards.CommitSafetyIff`). Over one run, every server keeps to its recorded votes, and no term decreases, if
and only if no restart breaks the condition (`Restarts.VotesStayIff`, `Restarts.TermsNeverDecreaseIff`). Over
one restart, in any run: the server would betray a recorded vote if and only if the record lies behind stray
bytes and the records in front of them do not tell the same vote and term (`Restarts.VoteForgottenIff`); a
server that has truncated nothing loses part of its log if and only if an entry lies there
(`Restarts.EntriesKeptIff`); and if no entry is lost, the log comes back with each index in its place if and
only if nothing was truncated (`ReplicationSafety.RestartedInPlaceIff`). Crashes that leave no byte or at
least a whole header lose nothing (`Restarts.CleanCutsAreIntact`).

- **One server.** The documentation offers a single node for testing. It never leads, because votes are
  counted only when a reply arrives, and so accepts no write (`Availability.LonersNeverLead`). That is the
  only exception: a set of servers can get every command acknowledged if and only if it is a majority of at
  least two (`Availability.AvailableIff`).
- **Later terms.** Raft lets every message of a later term end a campaign. Here a response does so only if it
  answers a request of the current term, in the role that sent it; any other is ignored altogether
  (`Conduct.CatchesUpIff`).
- **The log over many lives.** The files read back as exactly what was written whole if and only if no event
  put a whole record, or by chance of the checksum a readable part of one, behind stray bytes of its file
  (`WalProof.CutOffWritesIff`). `WalProof.RecordLost` is a family of records that are lost whatever the
  checksum, and `WalFrames.SurvivesTear` gives the condition for a single tear.
- **Replaying twice.** The number of good bytes is counted in 32 bits per record. A good record within 12
  bytes of 4 GiB counts as almost nothing, so a cut behind it loses it (`WalFrames.FourGigabytes`).
  `WalFrames.ReplayAgain` gives the exact condition.
- A vote may come back together with a later term than it was cast in, because the empty vote of a new
  term is not written. This is conservative: `VoteSafety.RecoveryAgrees` proves that no vote of the
  current term is forgotten.

Where the code and its documentation disagree, the model follows the code: ARCHITECTURE.md says that
the leader binary-searches for the conflict term, and the code scans backward; the comment on Replay
promises truncation at the first corrupt record, and a partial header is left in place.

## Model

| member | source | states |
|---|---|---|
| Safety.LeaderCompleteness | internal/raft/replication.go:106-139 | what any node knows to be committed, in any term, is in the log of every leader of every later term, whenever that leader was elected |
| Safety.StateMachineSafety | internal/raft/node.go:534-542 | at any two moments, two nodes' logs are equal as far as both commit indices reach, and commit indices stay within logs |
| Safety.CommittedStays | internal/raft/node.go:498-532 | what a node once knew to be committed is a prefix of its log for ever after: no append truncates it, no crash loses it |
| Safety.CommitNeverDecreases | internal/raft/node.go:534-542 | no step but a crash lowers a commit index |
| Safety.LogMatching | internal/raft/node.go:480-532 | two logs, at any two moments, that agree on index and term of an entry agree on everything up to it |
| Safety.LogsOrdered | internal/raft/replication.go:190-194 | terms along every log are positive and never decrease, each stored index is the position, and a leader's entries are of its term or earlier |
| Safety.LeaderAppendOnly | internal/raft/replication.go:181-195 | while a node leads a term its log only grows at the end |
| Availability.AvailableIff | internal/raft/replication.go:178-228 | from every state of every run: a set of servers can by itself get every command acknowledged, if and only if it is a majority of at least two servers |
| Availability.AnyMajorityCommits | internal/raft/replication.go:181-228 | from every state of every run, any majority of at least two servers has a continuation, with steps of its own only, in which a given command is submitted, replicated, committed, delivered and acknowledged |
| Availability.AnyMajorityElects | internal/raft/node.go:230-322 | from every such state, any majority can elect one of its members in a later term than those of all of them |
| Availability.AlreadyOutside | internal/raft/replication.go:212-225 | servers that are no majority acknowledge nothing by themselves that has not already reached the log of a server outside |
| Availability.LonersNeverLead | internal/raft/node.go:276-319 | in a cluster of one nobody ever leads |
| Safety.CommittedIsHeld | internal/raft/replication.go:113-139 | what a node once knew to be committed is, at every later moment, in the logs of a majority of the servers |
| VoteSafety.ElectionSafety | internal/raft/node.go:230-322 | at most one leader per term over a whole run, across crashes at any byte of a write and repeated replies, in every run in which no restart makes a server betray a recorded vote, whatever else it loses |
| VoteSafety.OneVotePerTerm | internal/raft/node.go:392-433 | in those runs no two candidates are ever granted a server's vote in one term, restarts included |
| VoteSafety.RecoveryAgrees | internal/raft/node.go:135-169 | at every moment of those runs, a restart that finds all records gives the exact term, never forgets a vote granted in that term, and gives the exact log if and only if the process dropped no entry |
| Elections.WinsIff | internal/raft/node.go:306-319 | in every run of clusters of every size: a candidate that gets an answer in its term counts the sender if it grants, leads if and only if the servers counted are then a majority, and starts with nextIndex behind its log and matchIndex 0 for every peer |
| Elections.OnlyVotesElect | internal/raft/node.go:313-319 | there is no other way to the lead |
| Terms.TermsAreBegun | internal/raft/node.go:234-236 | in every run, every term of a node, a record, a heartbeat or a message was begun by a candidacy |
| Terms.TermsAreSpoken | internal/raft/node.go:452-473 | in every run, no message carries a term that its sender has not been in |
| Terms.ResponsesAnswer | internal/raft/node.go:396-403 | every response answers a request that its sender handled, with exactly what the handler returned, in the term it was then in |
| Terms.RequestsAreAnswered | internal/raft/node.go:392-546 | every request that is handled is answered |
| Terms.CampaignsEnd | internal/raft/node.go:360-389 | a server that stood or led in a term and has left it, or follows in it, is never again candidate or leader of that term, restarts included |
| Terms.DeposedForEver | internal/raft/replication.go:68-72 | a candidate or leader that heeds a message of a later term follows in exactly that term, and never stands or leads in the old one again |
| Messages.RequestsTellLog | internal/raft/node.go:270-275 | every vote request tells the term, last index and last term that its sender had when it stood |
| Messages.EveryPeerIsAsked | internal/raft/node.go:276-283 | a candidate asks each of its peers |
| Messages.RequestGrantedIff | internal/raft/node.go:406-417 | in every run, a request is granted if and only if the voter is in no later term, has not voted for another in this one, and its log is not ahead of the log the candidate stood with |
| Messages.AppendsTellSender | internal/raft/node.go:585-598 | every append was sent with the sender's log from nextIndex on, and with the term and commit index of a moment at which it led: that of a tick, or that at which it began the heartbeat |
| Messages.HeartbeatCaptures | internal/raft/node.go:575-577 | a leader that begins a heartbeat captures its term and commit index |
| Messages.HeartbeatSends | internal/raft/node.go:582-598 | a heartbeat that goes on sends such an append, with what it captured |
| Messages.TickSends | internal/raft/replication.go:18-53 | so does a tick of replication |
| Conduct.TermAfter | internal/raft/node.go:230-671 | for every state: a node is in the term of every message it heeds, if that is later than its own; messages it does not heed change nothing; nothing else but its own candidacies moves its term |
| Conduct.CatchesUpIff | internal/raft/node.go:295-304 | a later term is taken over, with the role of a follower and a term record, if and only if the message is a request or answers one of the current term in the role that sent it |
| Conduct.CandidacyEnds | internal/raft/node.go:301-304 | a candidate that hears of a later term follows in exactly that term, without a vote, with that term as its last record and all else as it was |
| Conduct.LeadershipEnds | internal/raft/replication.go:68-72 | so does a leader |
| Conduct.AnswersInTerm | internal/raft/node.go:452-473 | both handlers answer in the term the node is then in, the later of its own and the request's |
| Conduct.UpToDateIsOrder | internal/raft/node.go:437-445 | any two logs compare, a longer log of the same last term compares no worse, and comparing is transitive |
| Conduct.GrantedIff | internal/raft/node.go:406-417 | a vote is granted if and only if the term is not stale, no other vote of it binds the voter, and the candidate's last term and index are, compared in this order, at least the voter's |
| Conduct.VoteCast | internal/raft/node.go:398-424 | a granted vote binds the voter and is recorded last; a refusal leaves the vote alone, or clears it with a new term |
| Conduct.AskedAgain | internal/raft/node.go:412-417 | a voter grants its vote to the same candidate again and refuses it to others of that term |
| Conduct.FreeToVote | internal/raft/node.go:361-364 | a node that has moved to a later term without voting grants the first request of a good enough log |
| Conduct.Candidacy | internal/raft/node.go:234-275 | a candidacy raises the term by one, votes for itself, records both, and asks with its own log's end |
| Conduct.AppendAnswered | internal/raft/node.go:452-496 | a stale append changes nothing; any other makes the node follow in its term, and succeeds if and only if the previous entry is held with its term |
| Conduct.RefusalHints | internal/raft/node.go:480-496 | a refusal names the end of a log that is too short, or the conflicting term and its first index |
| Conduct.CommitLearned | internal/raft/node.go:534-542 | an accepted append raises the commit index to what was announced, as far as the log goes |
| Conduct.SuccessCounted | internal/raft/replication.go:74-85 | on term-ordered logs, a success raises both indices of its sender and no others, never lowers them, and moves the commit index to the highest that then meets the rule |
| Conduct.EmptySuccess | internal/raft/node.go:625-626 | a success without entries counts nothing |
| Conduct.RefusalCounted | internal/raft/node.go:647-671 | a refusal moves only the sender's nextIndex: behind the last entry of the conflicting term, or to the hint, or down by one |
| Conduct.RecordsTellStep | internal/raft/node.go:238-251 | every step records exactly what it changes, once and in this order: a new term, a vote cast, new entries |
| Conduct.CommandAppended | internal/raft/replication.go:189-207 | a command becomes one entry of the leader's term at the end of its log |
| Conduct.AnsweredOnce | internal/raft/replication.go:219-222 | a client that has its answer gets no other |
| Conduct.BatchDelivers | internal/raft/replication.go:142-175 | a batch delivers everything committed and not yet applied, in order and once, and lastApplied moves only at its end |
| Conduct.RestartForgets | internal/raft/node.go:83-105 | a restarted node follows, knows of no commit and has delivered nothing |
| Conduct.LogsConfined | internal/raft/node.go:498-542 | only appends and clients change a log, and only appends and replies to them a commit index |
| Conduct.IndicesConfined | internal/raft/node.go:340-345 | only winning and replies to appends change what a leader knows of its peers |
| Conduct.RolesConfined | internal/raft/node.go:230-671 | only timeouts and messages change term, vote and role |
| Conduct.GoroutinesConfined | internal/raft/node.go:568-581 | only heartbeats and clients change what goroutines hold |
| Conduct.DeliveriesConfined | internal/raft/replication.go:142-175 | only the apply loop changes what is delivered and applied |
| VoteSafety.StepVotes | internal/storage/wal.go:188-216 | every completed step, and every crash at any byte of a write whose restart keeps to the recorded votes, keeps all votes cast |
| VoteSafety.VotesAreKept | internal/raft/node.go:419-424 | in those runs, a server that has granted a vote can never again grant another in that term |
| VoteRecords.RunRecords | internal/raft/node.go:135-169 | in all runs, whatever is lost: records are in order, votes of one term agree, and memory tells the term and the votes that the records tell |
| Restarts.VoteForgottenIff | internal/storage/wal.go:228-249 | for any crash in any run: a restarted server would vote for another candidate in the term of a recorded vote if and only if the record is not found and what is found does not tell the same vote and term |
| Restarts.KeepsVotesIff | internal/storage/wal.go:228-249 | the condition of the election theorems holds of a crash if and only if the restarted server would betray no recorded vote |
| Restarts.VotesStayIff | internal/storage/wal.go:228-249 | over any run, every server keeps to all recorded votes for ever if and only if every restart meets that condition |
| Restarts.TermsNeverDecreaseIff | internal/raft/node.go:360-371 | over any run, no node's term ever decreases if and only if no restart loses a record of a later term than those found |
| Restarts.EntriesKeptIff | internal/storage/wal.go:228-249 | for any crash in any run of a node that has truncated nothing: its log comes back whole if and only if no entry is lost |
| Restarts.CleanCutsAreIntact | internal/storage/wal.go:228-235 | a run in which every crash leaves no byte of the unfinished record or at least its whole header loses no record, however many crashes there are |
| Restarts.IntactRunsKeepVotes | internal/raft/node.go:135-169 | runs that lose no record are among those of the election theorems, even if truncated nodes restart |
| Restarts.IntactRunsCount | internal/raft/node.go:135-169 | runs that lose no record and restart no truncated node are among those of all theorems |
| Restarts.GuardedRunsCount | internal/raft/node.go:135-169 | the runs of the theorems on logs are among those of the election theorems |
| Guards.ElectionSafetyIff | internal/raft/node.go:230-322 | for all clusters and every choice of what restarts may do: at most one leader per term in all runs, if and only if no vote may be forgotten |
| Guards.TermSafetyIff | internal/raft/node.go:360-371 | terms never decrease in all runs, if and only if no term may be forgotten |
| Guards.CommitSafetyIff | internal/raft/node.go:534-542 | nobody ever commits two different entries at one position in all runs, if and only if no vote, term or entry may be forgotten and no truncated log come back |
| TornVotes.TwoLeaders | internal/storage/wal.go:228-249 | a run with two leaders of one term and two votes of one server in it, although no term and no entry is forgotten |
| TornVotes.CommitsForgotten | internal/storage/wal.go:228-249 | its continuation, in which both leaders commit and deliver different entries at index 1 |
| LostTerms.CompletenessForgotten | internal/raft/node.go:585-598 | a run of five servers in which only a term is forgotten and a leader of term 4 lacks what the leader of term 3 has committed |
| LostTerms.CommitsForgotten | internal/raft/node.go:585-598 | its continuation, in which two nodes commit different entries at index 1 |
| LostEntries.CompletenessLost | internal/storage/wal.go:228-249 | a run in which only an entry is forgotten and a leader of term 2 lacks what was committed and acknowledged in term 1 |
| LostEntries.CommitsLost | internal/storage/wal.go:228-249 | its continuation, in which two nodes commit and deliver different entries at index 1 |
| ReplicationSafety.AppendOutcome | internal/raft/replication.go:25-45 | an accepted append leaves the follower's log unchanged or makes it exactly the sender's log at the time of sending, which it then extends |
| ReplicationSafety.CompleteSuffix | internal/raft/replication.go:25-45 | every append carries the sender's complete log from prevLogIndex on, as it was when sent |
| ReplicationSafety.ClampNeverBites | internal/raft/node.go:534-542 | the announced commit index lies within the entries just matched, so the clamp by the follower's own last index equals the one by the last new entry |
| ReplicationSafety.MatchIndexSound | internal/raft/replication.go:75-85 | while leader and peer are in one term, the peer's log agrees with the leader's up to matchIndex, which is within both |
| ReplicationSafety.NextIndexBounds | internal/raft/node.go:340-345 | in every leader state nextIndex is between 1 and the last index plus one, and matchIndex within the log |
| ReplicationSafety.RefusalsAreHinted | internal/raft/node.go:663-670 | a leader that handles a refusal always finds a hint, so the slow fallback is never reached, and nextIndex stays in bounds |
| ReplicationSafety.CommitFindsHighest | internal/raft/replication.go:95-139 | in every leader state, commit advance picks the highest index that meets all three documented conditions, and moves nothing exactly if none does |
| ReplicationSafety.DeliveredIsCommitted | internal/raft/replication.go:142-175 | what a process has delivered is a prefix of its committed log, gap-free and in order, and covers lastApplied |
| ReplicationSafety.DeliveriesAgree | internal/raft/replication.go:159-170 | of any two replicas' deliveries, at any moments, one is a prefix of the other |
| ReplicationSafety.AcknowledgedIsCommitted | internal/raft/replication.go:212-225 | when SubmitCommand succeeds, the command is at its index in the submitting leader's log, committed and delivered |
| ReplicationSafety.AcknowledgedWritesArePermanent | internal/raft/replication.go:181-228 | an acknowledged command is at its index in the log of every leader of a later term, of every node whose commit index reaches it, and of the acknowledging node for ever after |
| KvSafety.StoresAgree | cmd/server/main.go:71-87 | after equally many deliveries two replicas hold the same map, and otherwise the longer one continues from the shorter one's map |
| KvSafety.AcknowledgedPutIsRead | internal/kvstore/store.go:60-74 | an acknowledged put is what its key reads as on every replica that has delivered it, until a later entry touches the key |
| Forgotten.MatchingBroken | internal/raft/node.go:503-518 | a run in which a restart of a truncated node, and nothing else, leaves two logs that agree on index and term of an entry and differ before it |
| Forgotten.CompletenessBroken | internal/raft/node.go:503-518 | a run in which a restarted truncated node leads a later term without the entry that the earlier leader has committed, delivered and acknowledged |
| Forgotten.CommitsBroken | internal/raft/node.go:503-518 | its continuation, after which two nodes have committed and delivered different entries at index 1 and a client was told that one of them is done |
| ReplicationSafety.RestartedInPlaceIff | internal/raft/node.go:503-518 | in every run, for every crash that loses no entry: the restarted log has each stored index in its place if and only if the process had truncated nothing and no entry is found of an append that truncates |
| Durability.StartElectionDurable | internal/raft/node.go:242-251 | a candidacy keeps memory and records in agreement, and the records tell the vote |
| Durability.HandleVoteDurable | internal/raft/node.go:419-424 | handling a vote request keeps memory and records in agreement; the recorded vote changes exactly if one is granted |
| Durability.HandleAppendDurable | internal/raft/node.go:510-529 | handling an append keeps memory and records in agreement, counting the dropped entries, and touches no vote |
| Durability.SubmitDurable | internal/raft/replication.go:197-203 | a client's entry is in the records when it is in the log |
| ClusterProof.StepKeeps | internal/raft/node.go:230-671 | every completed action, and every crash at any byte of a write whose restart forgets no vote, term or entry and brings back no truncated log, preserves the invariant that ties a cluster to its history |
| ClusterProof.RunHasChronicle | internal/raft/node.go:230-671 | every run has a history per state, each of which the later ones extend |
| History.WinnersHoldCommitted | internal/raft/node.go:437-445 | who wins an election in a later term than a commit decision holds everything it decided |
| Rollback.RollbackConverges | internal/raft/node.go:647-671 | between a leader and a follower in no later term, one refused round of append and reply more than the follower has distinct terms never happens: nextIndex has then settled, exactly behind the common prefix if it started above it, the logs are as they were, and the next round is accepted and gives the follower all of the leader's log |
| Rollback.RefusedProbeLowers | internal/raft/node.go:480-496 | a probe is accepted exactly within the common prefix, and a refused one strictly lowers nextIndex but never below that prefix |
| Rollback.RoundIsProbe | internal/raft/node.go:613-640 | a round of append, handling and reply is a probe: accepted if and only if the logs agree there, otherwise the follower's log stays and the leader rolls back and changes nothing else |
| Rollback.RefusalsBounded | internal/raft/node.go:647-671 | refused probes number at most the follower's distinct terms plus one |
| Merging.MergeIsAdopt | internal/raft/node.go:498-532 | for logs of one cluster that match at prevLogIndex, the merge loop yields the follower's own log if that extends the sender's, and otherwise exactly the sender's |
| Merging.MergeHolds | internal/raft/node.go:498-532 | the merged log keeps everything up to prevLogIndex and holds every sent term behind it |
| Merging.MergeIdempotent | internal/raft/node.go:498-532 | handling the same entries again changes nothing |
| Merging.MergeDelayed | internal/raft/node.go:498-532 | a delayed shorter message of the same leader never shortens the log |
| CommitRule.MiddleIsMajority | internal/raft/replication.go:107-122 | a majority of match indices reaches exactly the indices up to the middle of the sorted ones |
| CommitRule.AdvanceCommitFindsHighest | internal/raft/replication.go:95-139 | on term-ordered logs, testing only the middle index for the current term finds the highest committable index, or none exists |
| CommitRule.MiddleHeldByQuorum | internal/raft/replication.go:113-122 | the servers that reach the middle index are a majority of the cluster |
| CommitRule.CountedIff | internal/raft/replication.go:107-122 | an index counts as reached by a majority of match indices if and only if some majority of the servers, the leader by its log and peers by their match index, is known to reach it |
| CommitRule.SortSorts | internal/raft/replication.go:114 | the sorted match indices are descending and a permutation |
| Quorums.QuorumsMeet | internal/raft/node.go:315-316 | any two majorities share a server |
| NodeSpec.Divergence | internal/raft/node.go:499-532 | the loop's stopping point: all entries before it are held with the sent term, and the one there is missing or of another term |
| NodeSpec.FirstIndexOfTerm | internal/raft/log.go:91-98 | the least index of the term, or 0 exactly if the log has none |
| NodeSpec.LastIndexOfTerm | internal/raft/node.go:650-656 | the greatest index of the term, or 0 exactly if the log has none |
| NodeSpec.Filled | internal/raft/node.go:340-345 | all peers get the value and all other keys stay |
| RaftLogs.RaftLog.constructor | internal/raft/log.go:11-15 | a new log is empty behind its sentinel |
| RaftLogs.RaftLog.Append | internal/raft/log.go:18-20 | the entries are added at the end |
| RaftLogs.RaftLog.LastIndex | internal/raft/log.go:29-31 | the number of entries behind the sentinel |
| RaftLogs.RaftLog.LastTerm | internal/raft/log.go:34-36 | the last entry's term, 0 for an empty log |
| RaftLogs.RaftLog.TruncateAfter | internal/raft/log.go:40-44 | keeps what is at or before the index, and everything if the index is beyond the end |
| RaftLogs.RaftLog.Entries | internal/raft/log.go:47-57 | a copy of the entries of the range, as far as they exist, with the sentinel in front if it starts at 0 |
| RaftLogs.RaftLog.EntriesFrom | internal/raft/log.go:60-62 | a copy of everything from an index on |
| RaftLogs.RaftLog.Contains | internal/raft/log.go:70-72 | true exactly up to the last index, the sentinel included |
| RaftLogs.RaftLog.TermAt | internal/raft/log.go:75-80 | the entry's term, 0 for the sentinel and beyond the end |
| RaftLogs.RaftLog.RestoreEntries | internal/raft/log.go:84-87 | the log becomes exactly the given entries |
| RaftLogs.RaftLog.FindFirstIndexOfTerm | internal/raft/log.go:91-98 | the forward scan finds the least index of the term, or 0 |
| Nodes.Node.constructor | internal/raft/node.go:83-105 | the initial state, with the records found on disk |
| Nodes.Node.Replay | internal/raft/node.go:135-169 | term, vote and log come from replay; on a new node with what its records fold to, the state is that of a restart |
| Nodes.Node.BeginElection | internal/raft/node.go:230-275 | the state and the vote request of a candidacy |
| Nodes.Node.BecomeCandidate | internal/raft/node.go:234-251 | term, role and vote change and both records are written, whatever the role was |
| Nodes.Node.BuildVoteRequest | internal/raft/node.go:270-275 | the request tells the candidate's own last index and term |
| Nodes.Node.StepDown | internal/raft/node.go:360-389 | a later term clears the vote and is recorded; the role and the votes counted are reset in any case |
| Nodes.Node.TakeLead | internal/raft/node.go:326-356 | the node leads, with fresh indices for its peers |
| Nodes.Node.InitializeIndices | internal/raft/node.go:340-345 | the loop sets nextIndex behind the log and matchIndex to 0 for every peer |
| Nodes.Node.IsLogUpToDate | internal/raft/node.go:437-445 | last terms are compared first, then lengths |
| Nodes.Node.HandleRequestVote | internal/raft/node.go:392-433 | new state, records and reply to a vote request |
| Nodes.Node.ReceiveVote | internal/raft/node.go:292-319 | stale replies are ignored, a later term deposes, each peer counts once, a majority makes a leader |
| Nodes.Node.HandleAppendEntries | internal/raft/node.go:448-546 | new state, records and reply to an append, in all its branches |
| Nodes.Node.ListenTo | internal/raft/node.go:459-471 | the sender of a current append is followed |
| Nodes.Node.CheckPrevious | internal/raft/node.go:480-496 | consistent if and only if the previous entry is held with its term, and otherwise the hint of the refusal |
| Nodes.Node.Store | internal/raft/node.go:498-542 | the log after the merge, the records of what was new, and the clamped commit index |
| Nodes.Node.MergeReceived | internal/raft/node.go:498-532 | the truncate-and-append loop yields the kept prefix followed by the sent entries from the divergence on, and records exactly those |
| Nodes.Node.ReplaceAfter | internal/raft/node.go:506-518 | what follows the index is replaced, the new entries are recorded, and the dropped ones are not |
| Nodes.Node.AppendAndPersist | internal/raft/node.go:519-529 | entries are appended and recorded one by one |
| Nodes.Node.CaptureHeartbeat | internal/raft/node.go:568-581 | only a leader goes on, with its term and commit index as of the first critical section |
| Nodes.Node.PrepareReplication | internal/raft/replication.go:18-45 | a round of replication sends exactly if the node leads and has entries for the peer, and then the complete suffix with the current term and commit index |
| Nodes.Node.PrepareAppend | internal/raft/node.go:585-598 | the append for one peer: previous entry, complete suffix, and the captured term and commit index |
| Nodes.Node.ReceiveAppendReply | internal/raft/replication.go:60-89 | indices only go up on success, commit is advanced, a refusal rolls back, stale replies do nothing |
| Nodes.Node.HandleConflict | internal/raft/node.go:647-671 | nextIndex after a refusal, by hint or by the fallback |
| Nodes.Node.FindLastIndexOfTerm | internal/raft/node.go:650-656 | the backward scan finds the greatest index of the term, or 0 |
| Nodes.Node.AdvanceCommitIndex | internal/raft/replication.go:106-139 | collecting, sorting and picking sets the commit index as CommitRule says |
| Nodes.Node.SubmitCommand | internal/raft/replication.go:181-207 | only a leader appends and records the command, under the index and term it returns |
| Nodes.Node.PollSubmission | internal/raft/replication.go:213-224 | success exactly if the deadline is not over, the node still leads that term and has applied the index; ErrNotLeader, ErrTimeout or another turn in the other cases |
| Nodes.Node.CollectCommitted | internal/raft/replication.go:150-161 | the batch is everything committed and not yet applied |
| Nodes.Node.DeliverEntry | internal/raft/replication.go:165-170 | the next entry of the batch is sent |
| Nodes.Node.FinishBatch | internal/raft/replication.go:172-174 | lastApplied moves only when the batch is delivered |
| WalFrames.SurvivesTear | internal/storage/wal.go:218-306 | a file of written records, cut off at any byte, is read as exactly its whole records, and later records are read back behind them if and only if no byte of the unfinished record or at least its whole header was left |
| WalFrames.ReplayAgain | internal/storage/wal.go:308-315 | for any bytes: replaying the file again finds the same records if and only if no good one comes within 12 bytes of 4 GiB or nothing is cut; then it changes nothing more; the file is only ever cut |
| WalFrames.FourGigabytes | internal/storage/wal.go:302 | a record of 4 GiB is found, counts as no bytes, and is cut off with the incomplete one behind it |
| WalFrames.Misread | internal/storage/wal.go:236-249 | behind one to seven stray bytes a record reads as nothing that is ever written, and never panics, for any checksum |
| WalFrames.AlwaysLost | internal/storage/wal.go:240-249 | behind three stray bytes, a record shorter than 64 KiB whose length is not a multiple of 256 reads as incomplete for any checksum |
| WalFrames.ParseEncoded | internal/storage/wal.go:152-160 | a record whose length field does not wrap around is read back whatever follows it |
| WalFrames.ParsePart | internal/storage/wal.go:228-249 | any proper part of a record is recognised as a partial header or an incomplete record |
| WalFrames.ParseInverse | internal/storage/wal.go:251-259 | nothing but the encoding of a record reads as that record |
| WalFrames.U32RoundTrip | internal/storage/wal.go:154-155 | four little-endian bytes give back the number |
| WalStream.TornWrite | internal/storage/wal.go:228-249 | of any byte prefix of records, each not within 12 bytes of 4 GiB, exactly the whole ones are found; the file is then their exact encoding unless one to seven bytes were torn |
| WalStream.ReplayKeepsIff | internal/storage/wal.go:218-315 | the law of ReplayAgain for any format that reads back its encodings and nothing else |
| WalLives.ReadsBackIff | internal/storage/wal.go:138-306 | after any number of lives, each ended at any byte of a write, the files hold exactly the frames written whole if and only if no write ever went behind stray bytes of its file and was whole or readable by chance |
| WalLives.TidyLivesComeUp | internal/storage/wal.go:218-306 | as long as that never happened, no replay ever panics |
| WalLives.CleanTearsSpoilNothing | internal/storage/wal.go:228-249 | it never happens if every crash leaves no byte or at least a whole header |
| WalLives.BuriedIsCut | internal/storage/wal.go:240-249 | frames written behind one to seven stray bytes are cut off together with these, unless the checksum fits by chance: what the cluster's restart does |
| WalProof.CutOffWrites | internal/storage/wal.go:188-306 | over any number of lives, files and crashes inside a write that spoil nothing, the process comes up again and replay returns the fold of exactly the records written whole |
| WalProof.CutOffWritesIff | internal/storage/wal.go:188-306 | as long as no replay panics, the files hold exactly the frames written whole if and only if nothing was spoilt |
| WalProof.CleanTearsReadBack | internal/storage/wal.go:228-249 | in particular replay returns their fold if no crash leaves one to seven bytes |
| WalProof.RecordLost | internal/storage/wal.go:228-235 | three bytes of a torn record stay through a replay, and a whole record written behind them is lost for any checksum |
| WalProof.AppendIsWrite | internal/storage/wal.go:138-171 | what the object's Append does to the files is the append of the lives |
| WalProof.OpenIsReplay | internal/storage/wal.go:188-216 | where nothing fails, replay leaves the files that a new life starts with and returns what they tell, and it panics exactly if that life does not start |
| NodeDisks.FilesMirrorRecords | internal/storage/wal.go:138-306 | in every run, the files of a node hold exactly the records that the model lets a restart find, followed by as many stray bytes, unless a checksum fits by chance or a file with stray bytes is left for a new one |
| NodeDisks.FilesTellRecords | internal/raft/node.go:135-169 | so replaying these bytes does not panic and recovers exactly the term, vote and log of the model's restart |
| Recovery.RotationInvisible | internal/storage/wal.go:188-216 | for histories of positive, never decreasing terms and real votes, merging per-file folds equals one fold over everything |
| Recovery.FoldTermIsMax | internal/storage/wal.go:273-291 | the recovered term is the greatest one written |
| Recovery.FoldVoteIsLast | internal/storage/wal.go:282-291 | the recovered vote is the last one written, or none was |
| WalLayout.OnDisk | internal/storage/wal.go:152-160 | the bytes of a record: type 1, 2 or 3, length of the JSON, the JSON, and the checksum of all that, numbers with the lowest byte first |
| WalLayout.ReadsIff | internal/storage/wal.go:228-259 | for any bytes: when a header is missing, a record incomplete, the length wraps around so that slicing panics, or a record good |
| WalLayout.WrittenInOrder | internal/storage/wal.go:138-171 | the files of a log that began empty hold the bytes of all its records in order |
| WalLayout.RotatesWhenFull | internal/storage/wal.go:145-150 | a file passes 64 MiB only with a single record, and a new one is begun only for a record that the old one had no room for |
| WalLayout.BrokenIff | internal/storage/wal.go:219-239 | replay stops at a file if and only if it cannot open it, or cannot read on before a header is complete |
| WalLayout.CutIff | internal/storage/wal.go:240-271 | if its records are shorter than 4 GiB and replay does not panic, a file is cut, exactly behind its last good record, if and only if it can be opened and cut and at least a header lies behind that |
| Wal.FrameTells | internal/storage/wal.go:273-300 | only readable frames of the three types tell anything: a term, a vote with its term, or one more entry |
| Wal.PutUint32 | internal/storage/wal.go:154-155 | four bytes of the buffer change and no others |
| Wal.FillBuffer | internal/storage/wal.go:152-160 | the buffer holds type, length, payload and checksum of the record |
| Wal.WriteAheadLog.constructor | internal/storage/wal.go:59-85 | the last file is opened, or a first one created, and its size taken |
| Wal.WriteAheadLog.Append | internal/storage/wal.go:138-171 | the encoded record is added to the last file, or to a new one if the size would pass 64 MiB, so that a file passes it only with a single record |
| Wal.WriteAheadLog.Rotate | internal/storage/wal.go:173-183 | a new empty file becomes the last |
| Wal.WriteAheadLog.ReplayFile | internal/storage/wal.go:218-306 | the reading loop returns what the good frames of the readable bytes fold to, reports an error exactly if the file cannot be opened or a header not be read, cuts the file behind the good frames unless the truncation fails, and panics exactly on a wrapped-around length |
| Wal.WriteAheadLog.ReadFrame | internal/storage/wal.go:228-271 | header, payload and checksum are read and judged as by the parser |
| Wal.WriteAheadLog.Process | internal/storage/wal.go:273-300 | what a record of each type does to the recovered state; unreadable and unknown ones do nothing |
| Wal.WriteAheadLog.Replay | internal/storage/wal.go:188-216 | the loop over the files does what the recursive replay does, with what may fail with each file |
| Wal.ReplayRecovers | internal/storage/wal.go:188-216 | replay recovers what the readable bytes of the files up to the first broken one tell, merged in order, and repairs exactly these, unless one of them panics |
| Wal.ReplayShrinks | internal/storage/wal.go:308-315 | replay makes no file longer |
| KvStore.OutcomeIff | internal/kvstore/store.go:60-74 | a command reports success if and only if it decodes to a put or a delete, and otherwise that it does not decode or its unknown operation, and then changes nothing |
| KvStore.AppliedReads | internal/kvstore/store.go:60-74 | an applied command decides what its own key reads as and leaves all others alone |
| KvStore.LastWriteWins | internal/kvstore/store.go:60-74 | the last entry that touches a key decides what it reads as |
| KvStore.UntouchedStays | internal/kvstore/store.go:60-74 | a key that no entry touches reads as before |
| KvStore.ConsumeParts | cmd/server/main.go:71-87 | consuming in batches equals consuming at once |
| KvStore.KVStore.constructor | internal/kvstore/store.go:30-34 | a new store is empty |
| KvStore.KVStore.Get | internal/kvstore/store.go:37-42 | the value and whether the key is present |
| KvStore.KVStore.Put | internal/kvstore/store.go:45-49 | one key is set and no other changes |
| KvStore.KVStore.Delete | internal/kvstore/store.go:52-56 | one key is removed and no other changes |
| KvStore.KVStore.Apply | internal/kvstore/store.go:60-74 | put, delete, or an error that leaves the store as it was |
| KvStore.KVStore.Drain | cmd/server/main.go:71-87 | consuming delivered entries one by one, skipping empty commands, folds them into the map |

## Left out

- Timers, randomised timeouts, goroutine lifetimes and contexts: steps happen in any order. Availability says that a majority can always go on, not that it does so within any time.
- Restarts that forget a vote, in the election theorems, and those that forget a vote, a term or an entry or bring back a truncated log, in the theorems on logs, commits and deliveries: they do not hold there (Guards).
- Failures of the file system while writing: writes are ordered and succeed, and only the last one before a crash may be cut off.
- In the cluster, a restart cuts off all records behind stray bytes. In the files, those that were written after a rotation survive, and so does what fits its checksum by chance: NodeDisks.FilesMirrorRecords excludes both, and WalLives and WalProof are exact about them.
- WalProof.CutOffWritesIff: says nothing of lives in which replay panics, where nothing is read; TidyLivesComeUp excludes that if nothing was spoilt.
- JSON and CRC-32: parameters. A record is taken to be readable from its JSON, which is an object shorter than 4 GiB; nothing is said about detecting arbitrary corruption.
- File names and directory listing: the directory is the sequence of its files in order.
- Wal.WriteAheadLog.ReplayFile: the file position is modelled by the bytes left to read.
- Nodes.Node.PollSubmission: one turn of the waiting loop; the deadline is a parameter.
- Nodes.Node.AdvanceCommitIndex: the library's sort is modelled by a sorting function on values.
- Nodes without a write-ahead log, leader hints, metrics, status and logging.
- 64-bit wrap-around of terms and indices, except where nextIndex is decremented.
- Linearizable reads: the HTTP handler checks only local leadership.
- Transports, protocol buffers, HTTP handlers, configuration and the dashboard: input and output only.

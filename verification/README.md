# Verified models of the distributed systems labs

This project models four parts of the repository and proves properties of them in Dafny 4.11. Check it with
`dafny verify dfyconfig.toml`.

* **Linearizability checker** (`Lin*.dfy`). The checker searches for an order of the operations of a recorded
  history. The model keeps its data structures: a doubly linked list of call and return entries that is edited in
  place, a bitset of 64-bit words, a memo table of (bitset, state) pairs in hash buckets, and an explicit stack.
  `LinChecker.CheckSingle` is proved to return true exactly if the history is linearizable, and to terminate.
  `LinKv` proves that linearizability of a key/value history is decided key by key, and puts everything together
  in `CheckOperations`, with the loop that collects the results and the kill flag it sets. `LinEvents` is the
  interface for event lists, proved to agree with the one for timed operations. `LinPopcount` proves that the
  sideways bit count counts bits.
* **Raft** (`Raft*.dfy`). `RaftModel` says what each lock-protected region of a server does; `RaftServer` is the
  server object, whose methods are proved equal to it; `RaftCluster` is the cluster as a system of steps over a
  network that loses, delays, reorders and repeats messages, with servers that crash and restart from what they
  persisted, and with the step-down channel and the reply channels of each server. `RaftOutcomes` says what each
  handler does in the terms of the messages alone. `RaftVotes` proves election safety of all runs, `RaftLogs` log
  matching, and `RaftCommit` and `RaftSafety` state machine safety, each under assumptions of its own.
  `RaftLimits` and `RaftCounting` show that every one of these assumptions is needed: for each there is a run that
  meets all the others and breaks the guarantee. `RaftProbe` bounds the search for the point where two logs agree,
  and `RaftRoutine` proves that no step-down is forgotten. `RaftApply` proves that what is committed is applied,
  and that followers catch up.
* **Selective-repeat transport** (`Rdt*.dfy`). `RdtProtocol` is the system of sender, receiver and channels, with
  packets known by their position in the stream; its main theorem is that what has been delivered is always a
  prefix of what was accepted. `RdtWire` is the same system with the sequence numbers 0 to 29 that the parties
  really see. The window, queue, timer and handler classes work with the numbers, cells and bytes of the code, and
  are proved to do the same; `RdtSession` is a sender object and a receiver object with the wire between them, and
  has the theorem as an invariant; `Serve` drives it by any sequence of inputs.
* **MapReduce** (`Mr*.dfy`). `MrSchedule` is the scheduler, over every interleaving of registrations, successes
  and failures, in which no task and no worker is lost; `MrGroup`, `MrJob` and `MrPipeline` are the data flow,
  proved equal to a direct group-by.

Assumptions that the theorems name, because the code needs them:

* Raft log matching needs the *leader guards* (`RaftLogs.Guarded`): a promotion happens in the term of the voting
  round, a larger term always demotes a leader, and requests are sent only by a leader. The code drops the
  step-down signal when an old one is still in the channel (`StaleSignal`), takes office without looking at its
  term again, and starts a round of requests without looking at its role. `PromotionNeeded`,
  `DemotionOnVoteNeeded`, `DemotionOnAppendNeeded` and `SendingNeeded` are runs that end with two logs that have
  equal terms at an index and differ up to it.
* State machine safety needs, besides, that a server out of office commits nothing by a reply
  (`RaftCommit.Counted`; `CountingNeeded` is a run without it), and that no step takes a *choosable* entry, one
  that enough servers may yet store, from a server that has accepted it. For a crash and for an accepted request
  this is the exact condition (`CrashIff`, `AcceptIff`); all other steps meet it (`CommitInvNextIff`). A
  sufficient condition without choosable entries is `RaftSafety.Ordered`: a crash comes when the log is persisted,
  and an accepted request is not older than one accepted before in the same term. The code persists the truncated
  log before it appends (`PersistedIff`), and an old request cuts the log (`TruncatesIff`); `PersistingNeeded` and
  `InOrderNeeded` are runs in which two servers apply different commands at one index.
* A server reads replies only from the channel of its last round of requests, and only while the leader routine
  that sent it is running (`beat`, `office`); a leader that reads an old signal starts its routine again
  (`Reenter`). Votes are compared with half of the servers only when another server's vote is counted, so a server
  alone in its cluster never takes office.
* The transport needs that nothing arrives once the other side is more than 20 packets past it (`SLACK`).
  `AliasIff` and `AckAliasIff` say exactly which older packets and acknowledgements are taken for new ones, and
  `SlackIsExact` is a run with 21 that delivers wrong bytes. An acknowledgement with the number of the next
  packet, at an empty window, makes the sender's numbers jump ahead by eleven (`SenderWindow.Ack`); `WireGoesOn`
  proves that it takes a late acknowledgement to do so.
* The circular queue records a capacity one larger than its array once it has grown. `RdtQueue.Overruns` is the
  exact condition under which a push then writes outside the array; `Push` and `FromUpperLayer` report it, and
  `GrownQueueOverruns` shows that it happens for every initial capacity.
* The merge of a MapReduce job fails exactly if some reduce bucket is empty, because a reduce task without pairs
  writes no file. A scheduler phase without tasks never returns, and neither does the checker on an empty history.

## Model

| member | source | states |
|---|---|---|
| `LinSpec.SearchDecides` | mit6.824/src/linearizability/linearizability.go:176-212 | The depth-first search's notion of success, that some minimal operation can go next and the rest can be completed, holds of the empty configuration exactly if some total order of all operations is legal for the model and respects real time. |
| `LinNodes.InsertBefore` | mit6.824/src/linearizability/linearizability.go:59-70 | Inserting a fresh node before a mark gives the list with the node at that place, all links consistent, and changes no other node. |
| `LinNodes.Length` | mit6.824/src/linearizability/linearizability.go:72-79 | Counts the nodes of the list. |
| `LinNodes.Lift` | mit6.824/src/linearizability/linearizability.go:147-155 | Takes a call and its return out of the list, adjacent or not, and leaves a consistent list of all other nodes; the two nodes keep their own links. |
| `LinNodes.Unlift` | mit6.824/src/linearizability/linearizability.go:157-165 | Undoes the matching lift: the list is again exactly the one before it. |
| `LinBitset.NewBitset` | mit6.824/src/linearizability/bitset.go:8-15 | Enough words for the positions, none set. |
| `LinBitset.Clone` | mit6.824/src/linearizability/bitset.go:17-21 | A separate array with the same words. |
| `LinBitset.Set` | mit6.824/src/linearizability/bitset.go:27-31 | The set of positions gains exactly the given one, at any length, across word boundaries. |
| `LinBitset.Clear` | mit6.824/src/linearizability/bitset.go:33-37 | The set of positions loses exactly the given one. |
| `LinBitset.Equals` | mit6.824/src/linearizability/bitset.go:64-74 | True exactly if the words are the same. |
| `LinBitset.BitsInjective` | mit6.824/src/linearizability/bitset.go:64-74 | Slices of equal length that have the same positions set are the same words, so comparing words compares sets. |
| `LinPopcount.Popcnt` | mit6.824/src/linearizability/bitset.go:44-54 | The loop adds up the counts of the words. |
| `LinPopcount.PopWordSum` | mit6.824/src/linearizability/bitset.go:47-51 | The masks, shifts and the product count exactly the ones of a word, for all 64-bit words. |
| `LinPopcount.PopIsCount` | mit6.824/src/linearizability/bitset.go:44-54 | The count of a bitset is the number of positions that are set, in 64-bit arithmetic. |
| `LinCache.HashOf` | mit6.824/src/linearizability/bitset.go:56-62 | The bucket of a bitset is a function of its contents only. |
| `LinCache.HashParity` | mit6.824/src/linearizability/bitset.go:56-62 | A bit of the hash differs from the same bit of the count exactly if an odd number of words have it. |
| `LinCache.CacheContains` | mit6.824/src/linearizability/linearizability.go:133-140 | Finds an entry exactly if an equal pair of position set and state was inserted before, whatever the buckets. |
| `LinCache.CacheAdd` | mit6.824/src/linearizability/linearizability.go:187-188 | The table then holds exactly one more pair; entries keep their own arrays. |
| `LinCache.Memoize` | mit6.824/src/linearizability/linearizability.go:184-188 | Looks up the next configuration and stores it if it is new; the live bitset is not part of the table. |
| `LinSearch.FrontIsMinimal` | mit6.824/src/linearizability/linearizability.go:180-183 | A call reached before any return belongs to an operation that no remaining operation precedes in real time, so it may go next. |
| `LinSearch.ReturnIsDead` | mit6.824/src/linearizability/linearizability.go:200-203 | When the cursor meets a return entry, no choice at this level completes the configuration. |
| `LinSearch.EmptyIsDone` | mit6.824/src/linearizability/linearizability.go:176-213 | When the list is empty all operations are ordered. |
| `LinSearch.SeenIsDead` | mit6.824/src/linearizability/linearizability.go:186-196 | A configuration found in the table and not on the stack has no completion, so skipping it loses nothing. |
| `LinSearch.PushKeeps` | mit6.824/src/linearizability/linearizability.go:187-193 | Descending keeps the search invariant: list, bitset and state are those of the operations on the stack, and everything cached off the stack is dead. |
| `LinSearch.PopKeeps` | mit6.824/src/linearizability/linearizability.go:204-210 | Backtracking keeps the search invariant, the abandoned configuration now being known to be dead. |
| `LinSearch.AdvanceKeeps` | mit6.824/src/linearizability/linearizability.go:194-198 | Moving the cursor past a refused call keeps the search invariant. |
| `LinChecker.Take` | mit6.824/src/linearizability/linearizability.go:189-193 | Pushes a call: bit set, pair lifted, earlier stack entries undisturbed. |
| `LinChecker.PutBack` | mit6.824/src/linearizability/linearizability.go:204-209 | Pops a call: bit cleared, pair back in place, the state of the level below restored. |
| `LinChecker.TryCall` | mit6.824/src/linearizability/linearizability.go:180-199 | One call entry: refused by the model, already seen, or pushed; keeps the invariant and makes progress in the termination measure. |
| `LinChecker.Backtrack` | mit6.824/src/linearizability/linearizability.go:201-210 | One return entry: keeps the invariant and makes progress, or shows that the history has no order. |
| `LinChecker.Search` | mit6.824/src/linearizability/linearizability.go:176-213 | The loop terminates, never follows a missing link, and decides linearizability unless its last look at the kill flag, and no earlier one, sees it set. |
| `LinChecker.CheckSingle` | mit6.824/src/linearizability/linearizability.go:167-214 | For every list that spells a history: true only if the history is linearizable, false only if it is not or the last look at the kill flag saw it set; terminates on every input. |
| `LinHistory.MakeEntries` | mit6.824/src/linearizability/linearizability.go:37-49 | A call and a return entry for each operation, numbered in history order and sorted by time. |
| `LinHistory.PositionsArranged` | mit6.824/src/linearizability/linearizability.go:37-49 | With distinct times every operation's entries have one place each, the call before the return. |
| `LinHistory.PositionsKeepOrder` | mit6.824/src/linearizability/linearizability.go:37-49 | In the entry list a return stands before a call exactly if it happened before it. |
| `LinHistory.MakeLinkedEntries` | mit6.824/src/linearizability/linearizability.go:109-126 | The list spells the entries in order, each call linked to the node of its return. |
| `LinHistory.SameShapeLinearizable` | mit6.824/src/linearizability/linearizability.go:37-49 | Replacing times by list positions does not change which histories are linearizable. |
| `LinKv.LegalMeans` | mit6.824/src/linearizability/models.go:34-48 | An order is legal for the store exactly if every get answers the value last put to its key before it, or nothing, followed by all values appended to the key since, in order; puts and appends may answer anything. |
| `LinKv.StoreVerdict` | mit6.824/src/linearizability/models.go:34-48 | So a history is linearizable against the store exactly if some order of its operations respects real time and explains all answers in this sense. |
| `LinKv.Restrict` | mit6.824/src/linearizability/models.go:17-48 | A legal order of all keys, restricted to one key, is a legal order of that key under the single-value step. |
| `LinKv.Merge` | mit6.824/src/linearizability/models.go:17-48 | Legal orders of all keys merge into one legal order: the head of the key that holds the earliest return can always go first. |
| `LinKv.Locality` | mit6.824/src/linearizability/models.go:17-48 | A set of put, append and get operations is linearizable against the whole store exactly if each key's operations are linearizable against the single-value model. |
| `LinKv.Partition` | mit6.824/src/linearizability/models.go:17-28 | Exactly one sub-history for each key that occurs, its operations in history order. |
| `LinKv.SubHistoryPicks` | mit6.824/src/linearizability/models.go:18-22 | The sub-history of a key lists exactly its operations, each as often and in the order in which they occur. |
| `LinKv.Whole` | mit6.824/src/linearizability/model.go:24-27 | The partitions' verdicts together are the verdict on the whole history. |
| `LinKv.CheckHistory` | mit6.824/src/linearizability/linearizability.go:241-246 | Entries, list and search together decide linearizability of a history with distinct times, unless the last look at the shared kill flag sees it set. |
| `LinKv.CollectorAnswer` | mit6.824/src/linearizability/linearizability.go:251-268 | However many results have been read, in any order: the loop has returned exactly if one of them was false or, there being partitions, all were read; it answers whether all were true; and the kill flag is set exactly when it returns false, so that no result it reads was computed under the flag. |
| `LinKv.Collect` | mit6.824/src/linearizability/linearizability.go:251-268 | The loop over results in any arrival order: if no result it read was false then all partitions it read are linearizable, otherwise some partition is not; it ends by returning or with nothing left to read. |
| `LinKv.Unread` | mit6.824/src/linearizability/linearizability.go:243-245 | Whatever the partitions that are still running see of the flag, each of them ends, is right if it says true, and is wrong if it says false only if its last look saw the flag. |
| `LinKv.CheckOperations` | mit6.824/src/linearizability/linearizability.go:235-270 | Without a timeout, for every arrival order and whatever the unread partitions see of the kill flag: never returns on an empty history, and otherwise returns true exactly if the history is linearizable against the whole store, that is, if some order that respects real time explains every get by the puts and appends before it. |
| `LinEvents.Renumber` | mit6.824/src/linearizability/linearizability.go:81-95 | The same events with the ids 0 to n - 1, equal exactly where the ids were equal. |
| `LinEvents.RenumberKeeps` | mit6.824/src/linearizability/linearizability.go:81-95 | For every event list, complete or not, renumbering keeps the operations it tells of, and completeness. |
| `LinEvents.ConvertEntries` | mit6.824/src/linearizability/linearizability.go:97-107 | One entry for each event, with its kind, value and id. |
| `LinEvents.EventsArranged` | mit6.824/src/linearizability/linearizability.go:109-126 | The renumbered events of complete operations are two for each id, each at the place of its operation's call or return. |
| `LinEvents.CheckEvents` | mit6.824/src/linearizability/linearizability.go:272-313 | For every model without an event partition and every list of complete operations under any ids: true exactly if the operations, timed by their places in the list, are linearizable. |
| `LinEvents.InterfacesAgree` | mit6.824/src/linearizability/linearizability.go:37-49 | The events of a timed history, in time order, have the verdict of the history. |
| `LinEvents.OneKey` | mit6.824/src/linearizability/models.go:15-51 | The key/value model, which has no event partition, decides events of one key as the whole store does. |
| `LinEvents.KeysMixed` | mit6.824/src/linearizability/models.go:15-51 | For any two keys it does not: events that the store explains are refused. |
| `RaftServer.Raft.constructor` | mit6.824/src/raft/raft.go:570-621 | A server starts as a follower from what was persisted. |
| `RaftServer.Raft.SavePersistent` | mit6.824/src/raft/raft.go:112-121 | Persists term, vote and log, and changes nothing else. |
| `RaftServer.Raft.UpdateTermTo` | mit6.824/src/raft/raft.go:167-180 | Adopts a larger term, forgets the vote and persists; a candidate or leader steps down and is signalled, unless an earlier signal is still in the channel. |
| `RaftServer.Raft.RequestVote` | mit6.824/src/raft/raft.go:201-226 | The vote handler: the whole new state and the reply, which carries the term from before the update. |
| `RaftServer.Raft.ApplyCommitted` | mit6.824/src/raft/raft.go:182-199 | Hands up one message for each index after the last applied one up to the commit index, in order, with that index and the log's command there. |
| `RaftServer.Raft.ConflictHint` | mit6.824/src/raft/raft.go:260-272 | The hint for the leader: the end of a short log, or the start of the conflicting term's run. |
| `RaftServer.Raft.SkipAgreeing` | mit6.824/src/raft/raft.go:276-281 | Finds the longest run of sent entries that agree in term with the log. |
| `RaftServer.Raft.SpliceEntries` | mit6.824/src/raft/raft.go:282-288 | The agreeing entries are kept and the rest replaced; what is persisted is the truncated log. |
| `RaftServer.Raft.FollowLeader` | mit6.824/src/raft/raft.go:289-292 | The commit index follows the leader's as far as the log reaches; what is newly committed is handed up. |
| `RaftServer.Raft.AppendEntries` | mit6.824/src/raft/raft.go:247-299 | The append handler: the whole new state and the reply; the commands handed up are exactly those that the cluster's record gains, so that state machine safety is about what the service gets. |
| `RaftServer.Raft.Start` | mit6.824/src/raft/raft.go:319-340 | A leader appends and persists the command; others leave their state alone. |
| `RaftServer.Raft.OpenRound` | mit6.824/src/raft/raft.go:462-470 | Raises the term, votes for itself, persists, and asks with the last index and term; a round after another leaves the role as it is. |
| `RaftServer.Raft.LeaveRoutine` | mit6.824/src/raft/raft.go:414-418 | Reading the signal empties the channel and ends the voting round or the time in office; role, term and log stay. |
| `RaftServer.Raft.OnVoteReply` | mit6.824/src/raft/raft.go:503-524 | A vote reply ends the candidacy if its term is larger, and counts if granted. |
| `RaftServer.Raft.TakeOffice` | mit6.824/src/raft/raft.go:518-522 | A candidate with enough votes becomes leader and starts the leader routine in the same locked region. |
| `RaftServer.Raft.StartRoutine` | mit6.824/src/raft/raft.go:358-363 | The leader expects every follower to be where its own log ends and to have matched nothing. |
| `RaftServer.Raft.BuildRound` | mit6.824/src/raft/raft.go:380-399 | One request for each other server, from its next index, with the term, previous entry and commit index of the leader, and a new reply channel. |
| `RaftServer.Raft.CommitMajority` | mit6.824/src/raft/raft.go:431-445 | Commits at the middle of the sorted match indexes, but only an entry of the leader's own term. |
| `RaftServer.Raft.OnAppendReply` | mit6.824/src/raft/raft.go:419-452 | A reply demotes, advances or moves back the follower's indexes, and may commit; the commands handed up are exactly those that the cluster's record gains. |
| `RaftModel.MatchLength` | mit6.824/src/raft/raft.go:276-281 | The length found is the longest run that agrees in term. |
| `RaftModel.RunStart` | mit6.824/src/raft/raft.go:266-271 | The index found starts the maximal run of one term that ends at the conflict. |
| `RaftOutcomes.VoteOutcome` | mit6.824/src/raft/raft.go:201-226 | Field by field: a vote is granted exactly if the term is not old, the vote is free or the candidate's own, and its log ends in a later term or is at least as long in the same; what is stored, and the reply's term. |
| `RaftOutcomes.AppendOutcome` | mit6.824/src/raft/raft.go:247-299 | A request is accepted exactly if its term is not old and the log has its previous entry. Then the commit index becomes the smaller of the leader's and the last index if the leader's is larger, and everything committed is applied; otherwise log and commit state stay, and the hint is the length or the start of the conflicting run. |
| `RaftOutcomes.AppendedLog` | mit6.824/src/raft/raft.go:276-288 | The accepted log is the old one as long as the terms agree with the request, then the request's entries. |
| `RaftOutcomes.VoteReplyOutcome` | mit6.824/src/raft/raft.go:503-517 | A larger term ends the round at once; otherwise exactly a granted vote is counted. |
| `RaftOutcomes.AppendReplyOutcome` | mit6.824/src/raft/raft.go:419-452 | A success with entries moves match and next index to the end of the request and commits the largest index that n - n/2 servers have reached if its entry is of the leader's term; a rejection moves the next index to the hint; an empty success changes nothing. |
| `RaftOutcomes.StartOutcome` | mit6.824/src/raft/raft.go:319-340 | A leader appends and stores the command with its term and counts itself; others change nothing. |
| `RaftOutcomes.RoundOutcome` | mit6.824/src/raft/raft.go:462-470 | A round asks for the next term with the end of the log, stores the candidate's own vote and counts it. |
| `RaftOutcomes.OfficeOutcome` | mit6.824/src/raft/raft.go:358-363 | A new leader starts behind its log with every follower, and knows only of its own entries. |
| `RaftOutcomes.RequestOutcome` | mit6.824/src/raft/raft.go:385-399 | A request's previous entries and its entries together are the leader's log, and it carries the commit index. |
| `RaftOutcomes.BootOutcome` | mit6.824/src/raft/raft.go:570-597 | A restarted server knows what it stored and nothing else. |
| `RaftVotes.VoteInvNext` | mit6.824/src/raft/raft.go:201-226 | Every step of the cluster, crashes included, keeps: recorded votes are the persisted ones, counted votes were cast, winners had more than half. |
| `RaftVotes.ElectionSafety` | mit6.824/src/raft/raft.go:460-526 | In every run, crashes and restarts included and with no assumption on delivery, at most one server ever counts more than half of the votes for a term. |
| `RaftVotes.OneWinner` | mit6.824/src/raft/raft.go:518-522 | In every run, no two servers ever have enough votes to take office in rounds of the same term, at whatever times. |
| `RaftVotes.OneVotePerTerm` | mit6.824/src/raft/raft.go:201-226 | In every run, restarts from persisted state included, any two granted replies of one voter for one term name the same candidate. |
| `RaftVotes.VotesAreFinal` | mit6.824/src/raft/raft.go:201-226 | Through every step a server's vote field is the vote recorded for it in its term, and records stay. |
| `RaftVotes.TermsGrow` | mit6.824/src/raft/raft.go:167-180 | No step lowers any server's term, a restart from persisted state included. |
| `RaftRoutine.SignalWaits` | mit6.824/src/raft/raft.go:170-173 | In every run, a server that has stepped down while its candidate or leader routine still runs has the signal in its channel; reading it leads to the follower routine with an empty channel. |
| `RaftLogs.SplicedIsFull` | mit6.824/src/raft/raft.go:273-288 | Although the loop compares only terms, an accepted request leaves exactly the sender's whole log. |
| `RaftLogs.LogInvNext` | mit6.824/src/raft/raft.go:247-299 | Every step that meets the leader guards, crashes included, keeps: all logs, persisted or in flight, are chains of prefixes of the logs of the leaders of their entries' terms. |
| `RaftLogs.LeaderReply` | mit6.824/src/raft/raft.go:379-380 | A leader only ever handles replies to requests of its own term, since replies of earlier rounds and routines are lost with their channels. |
| `RaftLogs.LogMatching` | mit6.824/src/raft/raft.go:260-288 | In every guarded run, crashes included: two logs in servers, storage or requests that have equal terms at an index are equal up to it. |
| `RaftLogs.SuccessCopiesLog` | mit6.824/src/raft/raft.go:391-399 | In every guarded run, a request that succeeds leaves the follower with exactly the log the leader had when it sent it. |
| `RaftLogs.OneLeaderPerTerm` | mit6.824/src/raft/raft.go:518-522 | In every guarded run no two servers lead the same term at the same time. |
| `RaftQuorum.CommitPointReached` | mit6.824/src/raft/raft.go:436-444 | For every cluster size, odd or even, the middle of the sorted match indexes is reached by at least n - n/2 servers. |
| `RaftQuorum.CommitPointIs` | mit6.824/src/raft/raft.go:436-439 | The commit point is the largest index that at least n - n/2 of n servers have reached. |
| `RaftQuorum.CommitMeetsVotes` | mit6.824/src/raft/raft.go:436-444 | Every set of more than n/2 voters contains a server that has reached it. |
| `RaftCommit.CommitPointChosen` | mit6.824/src/raft/raft.go:431-445 | An entry of the leader's own term at the commit point is stored by a quorum of servers that accepted it in that term. |
| `RaftCommit.LeaderComplete` | mit6.824/src/raft/raft.go:157-165 | The comparison of last term and last index lets only candidates win whose log has every entry that may have been chosen. |
| `RaftSafety.CrashIff` | mit6.824/src/raft/raft.go:112-141 | A crash and restart keeps the invariant behind state machine safety exactly if what was persisted still holds every choosable entry the server has accepted. |
| `RaftSafety.AcceptIff` | mit6.824/src/raft/raft.go:273-288 | An accepted request keeps it exactly if it cuts off no choosable entry that the follower has accepted in the same term. |
| `RaftSafety.CommitInvNextIff` | mit6.824/src/raft/raft.go:247-299 | Every step that meets the leader guards, and by which no server out of office commits, keeps the invariant exactly if it takes no choosable entry from a server that has accepted it; all but crashes and accepted requests always do. |
| `RaftSafety.StateMachineSafety` | mit6.824/src/raft/raft.go:182-199 | In every run of steps that meet the leader guards, commit by replies only in office and spare the choosable entries, crashes and reordering included: no two servers ever apply different commands at the same index. |
| `RaftApply.CommittedIsApplied` | mit6.824/src/raft/raft.go:182-199 | In every run, crashes included and with no assumption, every server has applied a command at every index up to its commit index. |
| `RaftApply.FollowerApplies` | mit6.824/src/raft/raft.go:289-292 | In every run, a follower that accepts a request has applied a command at every index that the leader had committed and the request reaches. |
| `RaftApply.RequestIsLaw` | mit6.824/src/raft/raft.go:289-292 | The entries that a request says are committed are the only commands ever applied at their indexes, by any server. |
| `RaftApply.FollowerCatchesUp` | mit6.824/src/raft/raft.go:391-406 | In every safe run, a follower that accepts a leader's request has applied, at every index the leader had committed when it sent it, the command in the leader's log. |
| `RaftSafety.CommittedInLaterLeaders` | mit6.824/src/raft/raft.go:431-445 | In every such run, an entry committed in a term is in the log of the leader of every later term. |
| `RaftSafety.CommitPointInLog` | mit6.824/src/raft/raft.go:436-441 | In every such run the index that the commit rule looks at, when a leader counts a successful reply, is inside its log. |
| `RaftSafety.OrderedRunIsSafe` | mit6.824/src/raft/raft.go:247-299 | Conditions that can be checked at each step and suffice: a crash comes when the log is persisted, and an accepted request is not older than one the follower has accepted in the same term; nothing is asked of rejected requests. |
| `RaftLimits.PersistedIff` | mit6.824/src/raft/raft.go:282-288 | The first of these conditions fails after an accepted request exactly if the request brought something new, because the log is persisted before the entries are appended. |
| `RaftLimits.TruncatesIff` | mit6.824/src/raft/raft.go:273-288 | An accepted request keeps what the follower held of the leader's log exactly if the request is not an older, shorter one. |
| `RaftLimits.PromotionNeeded` | mit6.824/src/raft/raft.go:503-522 | A run of three servers in which every step meets the other leader guards, but not the one on promotion, and log matching fails. |
| `RaftLimits.StaleSignal` | mit6.824/src/raft/raft.go:500-502 | A run to a leader that was signalled as a candidate, opened another round instead of reading the signal, and won it: its channel is full. |
| `RaftLimits.DemotionOnVoteNeeded` | mit6.824/src/raft/raft.go:167-180 | The same for the demotion of a leader by a vote request, which is lost because an old signal fills the channel. |
| `RaftLimits.DemotionOnAppendNeeded` | mit6.824/src/raft/raft.go:167-180 | The same for the demotion of a leader by an append request. |
| `RaftLimits.SendingNeeded` | mit6.824/src/raft/raft.go:379-407 | The same for the guard on sending. |
| `RaftLimits.PersistingNeeded` | mit6.824/src/raft/raft.go:282-288 | A run of three servers in which every step meets all other assumptions, but a crash comes when the log is not persisted, and two servers apply different commands at one index. |
| `RaftLimits.InOrderNeeded` | mit6.824/src/raft/raft.go:247-299 | The same for an accepted request that is older than one accepted before. |
| `RaftCounting.CountingNeeded` | mit6.824/src/raft/raft.go:419-452 | The same, with five servers, for a server out of office that commits by a reply of its last round of requests. |
| `RaftRuns.ReachedByRun` | mit6.824/src/raft/raft.go:247-299 | What these seven examples reach is the last state of a run in the sense of the theorems, each step of which meets all assumptions but the one in question. |
| `RaftRuns.AllClauses` | mit6.824/src/raft/raft.go:247-299 | The seven assumptions together are exactly the leader guards, counting in office and the two conditions on crashes and order. |
| `RaftProbe.ServersAreTidy` | mit6.824/src/raft/raft.go:319-340 | The logs of servers hold terms that never decrease. |
| `RaftProbe.RejectionLowers` | mit6.824/src/raft/raft.go:260-272 | Every rejection strictly lowers the next index and keeps it at 1 or above. |
| `RaftProbe.ProbeBound` | mit6.824/src/raft/raft.go:446-450 | Between two logs that stand still, the hints lead to agreement after at most one rejection more than the follower's log has terms. |
| `RaftProbe.Rejected` | mit6.824/src/raft/raft.go:247-272 | The follower's handler takes the request built from the next index exactly if the logs agree just before it; otherwise the leader's reply handler moves the next index to the hint, and no log changes. |
| `RaftProbe.RequestBoundInRuns` | mit6.824/src/raft/raft.go:391-452 | In every guarded run, exchanging requests and replies by the handlers, a leader's requests to a server not ahead in term are rejected at most once more than that server's log has terms. |
| `RaftProbe.NextIndexInLog` | mit6.824/src/raft/raft.go:395-398 | In every guarded run, crashes included, a leader's next indexes stay between 1 and the length of its log, so building a request never reads outside the log. |
| `RdtChecksum.MakeChecksum` | mini_rdt/rdt_util.cc:9-19 | The complement of the wrapping 16-bit sum. |
| `RdtChecksum.CheckChecksum` | mini_rdt/rdt_util.cc:21-31 | True exactly if the sum, checksum included, is all ones. |
| `RdtChecksum.SumAdds` | mini_rdt/rdt_util.cc:9-19 | The sum of two parts, the first of even length, is the sum of their sums modulo 65536. |
| `RdtChecksum.SumOfWord` | mini_rdt/rdt_util.cc:12-14 | The sum of two bytes is the little-endian word. |
| `RdtChecksum.SumOdd` | mini_rdt/rdt_util.cc:15-17 | An odd last byte counts as the high byte of a word. |
| `RdtChecksum.AcceptedIff` | mini_rdt/rdt_util.cc:9-31 | Bytes are accepted exactly if the first two are the checksum of the rest. |
| `RdtChecksum.RoundTrip` | mini_rdt/rdt_receiver.cc:85-88 | Every data packet the sender builds is read back as it was, whatever fills it up. |
| `RdtChecksum.Fields` | mini_rdt/rdt_sender.cc:17-33 | Where checksum, type, sequence number, size and payload are. |
| `RdtChecksum.OneByteRejected` | mini_rdt/rdt_receiver.cc:86 | A packet in which one byte other than the size is changed is not read at all. |
| `RdtProtocol.FillKeeps` | mini_rdt/rdt_sender.cc:132-138 | Making packets moves bytes from the queue to packets without losing or reordering any, and stops only with an empty queue or a full window. |
| `RdtProtocol.FillChunks` | mini_rdt/rdt_sender.cc:22-32 | Every packet is filled to 123 bytes, except one that uses the queue up. |
| `RdtProtocol.FromUpperKeeps` | mini_rdt/rdt_sender.cc:121-143 | Accepting a message keeps: payloads of all packets made, then the queue, are all bytes accepted; a waiting queue means a full window. |
| `RdtProtocol.FromAckKeeps` | mini_rdt/rdt_sender.cc:147-170 | An acknowledgement keeps the same, and the window starts at the first unacknowledged packet. |
| `RdtProtocol.BasesOrdered` | mini_rdt/rdt_receiver.cc:45-63 | The sender's base never passes the receiver's. |
| `RdtProtocol.DeliverRun` | mini_rdt/rdt_receiver.cc:46-63 | Delivering from the base delivers exactly the next packets of the stream, up to the first that is missing. |
| `RdtProtocol.ArrivedIs` | mini_rdt/rdt_receiver.cc:38-63 | A packet that arrives in or before the window adds exactly itself to what has arrived and never replaces what is there, and the base is the first packet that has not arrived. |
| `RdtProtocol.InvNext` | mini_rdt/rdt_receiver.cc:85-109 | Every event of the system keeps its invariant. |
| `RdtProtocol.Delivery` | mini_rdt/rdt_receiver.cc:85-109 | With packets identified by their position, in every run with loss, duplication and reordering: the bytes delivered are a prefix of the bytes accepted, and sender base, receiver base and sender top are in this order within a window. |
| `RdtWire.AliasIff` | mini_rdt/rdt_receiver.cc:25-37 | A packet or acknowledgement from behind the window is taken for one in the window exactly if its distance, modulo 30, falls in the window; never up to 20 packets, and always at 21. |
| `RdtWire.DataRead` | mini_rdt/rdt_receiver.cc:25-63 | A data packet at most 20 packets late is handled, by its number, as the packet it is. |
| `RdtWire.AckRead` | mini_rdt/rdt_sender.cc:68-85 | So is an acknowledgement. |
| `RdtWire.AckAliasIff` | mini_rdt/rdt_sender.cc:68-85 | An acknowledgement from behind the window does nothing, as it should, exactly if no packet of the window has its number, or one that was counted before, or one after the next that is not yet made. |
| `RdtWire.WireIsNext` | mini_rdt/rdt_receiver.cc:85-109 | An event at parties that see sequence numbers only is, up to 20 packets late, the event of the system with positions. |
| `RdtWire.WireDelivery` | mini_rdt/rdt_receiver.cc:85-109 | With sequence numbers on the wire, in every run in which nothing is more than 20 packets late: the bytes delivered are a prefix of the bytes accepted, and the windows stay in step. |
| `RdtWire.WireGoesOn` | mini_rdt/rdt_sender.cc:68-85 | In no such run does an acknowledgement at an empty window make the sender's numbers jump. |
| `RdtWire.ResendAnswered` | mini_rdt/rdt_receiver.cc:88-97 | In every such run a retransmitted packet, by its number, is taken or acknowledged again; the receiver never ignores it. |
| `RdtWire.AnswersIff` | mini_rdt/rdt_receiver.cc:25-37 | The receiver answers exactly the numbers of the ten packets before its base and the ten from it on. |
| `RdtWire.NeverStuck` | mini_rdt/rdt_sender.cc:111-117 | From every state of such a run, if packets and acknowledgements arrive from then on, everything accepted is delivered. |
| `RdtStale.SlackIsExact` | mini_rdt/rdt_receiver.cc:25-63 | A run in which nothing is more than 21 packets late, and what is delivered is not a prefix of what was accepted. |
| `RdtSenderWindow.SenderWindow.constructor` | mini_rdt/rdt_sender.cc:46 | An empty window. |
| `RdtSenderWindow.SenderWindow.Send` | mini_rdt/rdt_sender.cc:49-57 | The number of the next packet, or -1 exactly if ten packets are unacknowledged. |
| `RdtSenderWindow.SenderWindow.Backup` | mini_rdt/rdt_sender.cc:58-62 | Stores the packet in its cell; the assertion there cannot fail. |
| `RdtSenderWindow.SenderWindow.GetBackup` | mini_rdt/rdt_sender.cc:63-67 | Returns the packet as it was sent; the assertion there cannot fail. |
| `RdtSenderWindow.SenderWindow.Ack` | mini_rdt/rdt_sender.cc:68-85 | For every number: marks the packet of the window that has it and moves the base to the first unacknowledged packet, or does nothing; at an empty window the number of the next packet makes the numbers jump ahead by eleven. |
| `RdtReceiverWindow.IndexIs` | mini_rdt/rdt_receiver.cc:25-37 | For every number: the cell of the packet of the window that has it, otherwise -1 or -2 as it is within one window behind or not. |
| `RdtReceiverWindow.ReceiverWindow.constructor` | mini_rdt/rdt_receiver.cc:23 | An empty window. |
| `RdtReceiverWindow.ReceiverWindow.Put` | mini_rdt/rdt_receiver.cc:38-44 | Stores the payload unless the packet is already there. |
| `RdtReceiverWindow.ReceiverWindow.GetAfterBase` | mini_rdt/rdt_receiver.cc:46-63 | Empties the run of cells after the base and returns its bytes in order; the window moves past it, as the abstract receiver does. |
| `RdtReceiverWindow.ReceiverWindow.FromLowerLayer` | mini_rdt/rdt_receiver.cc:85-109 | For every packet, however old: the handler is the receiver's step on the wire, with its answer and what it passes up. |
| `RdtQueue.CircleQueue.constructor` | mini_rdt/rdt_util.h:91-92 | An empty queue whose array has room for one byte more than its capacity. |
| `RdtQueue.CircleQueue.Empty` | mini_rdt/rdt_util.h:96 | True exactly if there are no bytes. |
| `RdtQueue.CircleQueue.LastSize` | mini_rdt/rdt_util.h:97 | The number of bytes. |
| `RdtQueue.CircleQueue.Copy` | mini_rdt/rdt_util.cc:103-112 | The first bytes, also around the end of the array. |
| `RdtQueue.CircleQueue.Pop` | mini_rdt/rdt_util.h:98 | Drops the first bytes. |
| `RdtQueue.CircleQueue.Enlarge` | mini_rdt/rdt_util.cc:113-129 | Keeps the contents; the recorded capacity becomes one more than the new array allows. |
| `RdtQueue.CircleQueue.Push` | mini_rdt/rdt_util.cc:87-101 | Appends the bytes, also around the end and with growth, unless it would write outside the array, which it would exactly under the stated condition on the fields. |
| `RdtQueue.OverrunsIff` | mini_rdt/rdt_util.cc:93-99 | The stated condition holds exactly if some byte of the push would go to an index outside the array. |
| `RdtQueue.GrownQueueOverruns` | mini_rdt/rdt_util.cc:113-129 | For every initial capacity: grow once, empty, and a push within the recorded capacity writes outside the array. |
| `RdtTimer.InsertAfter` | mini_rdt/rdt_util.cc:41-42 | Linking a new node behind another gives the list with the node at that place. |
| `RdtTimer.RemoveAfter` | mini_rdt/rdt_util.cc:57 | Unlinking the successor of a node gives the list without it. |
| `RdtTimer.VirtualTimer.constructor` | mini_rdt/rdt_util.h:45 | A list of the head alone, clock not armed. |
| `RdtTimer.VirtualTimer.FindPlace` | mini_rdt/rdt_util.cc:39-40 | The walk ends before the first deadline that is not earlier. |
| `RdtTimer.VirtualTimer.FindKey` | mini_rdt/rdt_util.cc:53-54 | The walk ends at the node with the key, or at the end if there is none. |
| `RdtTimer.VirtualTimer.Start` | mini_rdt/rdt_util.cc:33-48 | Adds the deadline in order; the list stays linked, with its tail and count right, and the clock is armed for the earliest deadline. |
| `RdtTimer.VirtualTimer.End` | mini_rdt/rdt_util.cc:50-69 | Removes the deadline of the key if there is one, and nothing else; tail and count stay right, and the clock armed for the earliest deadline, if any. |
| `RdtTimer.VirtualTimer.Fire` | mini_rdt/rdt_util.cc:71-78 | Takes out the earliest deadline; tail and count stay right. |
| `RdtTimer.VirtualTimer.Rearm` | mini_rdt/rdt_util.cc:80-84 | Arms the clock for the earliest deadline, or stops it if the tail is the head. |
| `RdtSender.PendingShrinks` | mini_rdt/rdt_sender.cc:147-155 | Acknowledging a packet of the window stops its timer and no other, however far the base moves. |
| `RdtSender.AckTimers` | mini_rdt/rdt_sender.cc:147-155 | Stopping the timer with an acknowledgement's number stops the timer of the packet it is counted for and no other, and none if it is counted for none. |
| `RdtSender.PacketsAt` | mini_rdt/rdt_sender.cc:157-168 | The packets sent are all packets from the first new one on, in order, each with its number modulo 30 and its payload. |
| `RdtSender.SenderSide.constructor` | mini_rdt/rdt_sender.cc:93-98 | The initial sender, all of whose parts are new. |
| `RdtSender.SenderSide.SendChunk` | mini_rdt/rdt_sender.cc:134-137 | One packet is made, backed up, timed for a quarter of a second and sent; all other deadlines stay, and neither the window's nor the timer's assertion can fail. |
| `RdtSender.SenderSide.TakeChunk` | mini_rdt/rdt_sender.cc:17-33 | Takes the next payload from the queue, 123 bytes or what is left. |
| `RdtSender.SenderSide.FromUpperLayer` | mini_rdt/rdt_sender.cc:121-143 | Unless the queue would overrun, with the exact condition: the abstract sender's step, the packets sent in order, and timers for exactly the unacknowledged packets; the parts it comes to use are new. |
| `RdtSender.SenderSide.FromLowerLayer` | mini_rdt/rdt_sender.cc:147-170 | For every acknowledgement that does not make the numbers jump: the sender's step on the wire, the packets sent in order, and timers for exactly the unacknowledged packets. |
| `RdtSender.SenderSide.Timeout` | mini_rdt/rdt_sender.cc:173 | Sends the packet with the earliest deadline again, unchanged, and gives it a new deadline a quarter of a second on; all other deadlines stay. |
| `RdtSender.SenderSide.Resend` | mini_rdt/rdt_sender.cc:111-117 | The backed-up packet and a new deadline for it. |
| `RdtSession.Session.constructor` | mini_rdt/rdt_sender.cc:93-98 | A session with nothing accepted and nothing delivered is valid, and all its parts are new. |
| `RdtSession.Session.Reliable` | mini_rdt/rdt_receiver.cc:85-109 | In a valid session of the two objects and the wire between them, what has been passed up is a prefix of what was taken from above. |
| `RdtSession.Session.Accept` | mini_rdt/rdt_sender.cc:121-143 | Unless the queue overruns, taking a message keeps the session valid and is the system's event; the parts it comes to use are new. |
| `RdtSession.Session.Deliver` | mini_rdt/rdt_receiver.cc:85-109 | Any packet ever sent, arriving at most 20 packets late, keeps the session valid and is the event on the wire. |
| `RdtSession.Session.Acknowledge` | mini_rdt/rdt_sender.cc:147-170 | So does any acknowledgement ever sent, arriving at most 20 packets late. |
| `RdtSession.Session.Expire` | mini_rdt/rdt_sender.cc:173 | So does the clock, by sending an unacknowledged packet again, which changes nothing in the system. |
| `RdtSession.Session.Handle` | mini_rdt/rdt_sender.cc:121-173 | Any input, a message, a packet, an acknowledgement or the clock, keeps the session valid unless the queue overruns, and is the system's event. |
| `RdtSession.Serve` | mini_rdt/rdt_sender.cc:121-173 | A session made and driven by any sequence of inputs in which nothing that arrives is more than 20 packets late: what has been passed up is a prefix of the messages taken; it ends early only at a message for which the queue overruns. |
| `MrSchedule.InvNext` | mit6.824/src/mapreduce/schedule.go:51-108 | Every event keeps the scheduler's invariant on tasks and workers. |
| `MrSchedule.Conservation` | mit6.824/src/mapreduce/schedule.go:51-108 | In every interleaving with at least one task: each task is in exactly one of queued, running and done, no two workers run the same task, no task waits while a worker idles, and if a worker idles before the end then some task is running. |
| `MrSchedule.Workers` | mit6.824/src/mapreduce/schedule.go:51-108 | No worker is forgotten: in every interleaving an announced worker is running a task or waiting, unless it has failed, or its success has ended the phase; a worker that has failed does neither. |
| `MrSchedule.NeverStuck` | mit6.824/src/mapreduce/schedule.go:51-108 | In every interleaving, as long as one announced worker has not failed, some task is running until the phase ends. |
| `MrSchedule.CanFinish` | mit6.824/src/mapreduce/schedule.go:51-108 | From every state with a running task, successes alone end the phase. |
| `MrSchedule.ReturnsWhenAllDone` | mit6.824/src/mapreduce/schedule.go:61-71 | The scheduler returns exactly at the success that completes the last task, and then nothing is queued or running. |
| `MrSchedule.NoTasksNeverReturns` | mit6.824/src/mapreduce/schedule.go:51-71 | With no tasks it never returns. |
| `MrSchedule.Scheduler.constructor` | mit6.824/src/mapreduce/schedule.go:41-50 | All tasks queued in order, no workers. |
| `MrSchedule.Scheduler.Receive` | mit6.824/src/mapreduce/schedule.go:56-79 | One message from the channels: the new queues, done set and count, and the worker it frees, which after a registration or a success that is not the last is the one it came from. |
| `MrSchedule.Scheduler.RecordDone` | mit6.824/src/mapreduce/schedule.go:61-69 | Counts a task once, and notices the last one. |
| `MrSchedule.Scheduler.Requeue` | mit6.824/src/mapreduce/schedule.go:71-77 | A failed task is queued again and a waiting worker called; the failed worker is dropped. |
| `MrSchedule.Scheduler.Place` | mit6.824/src/mapreduce/schedule.go:80-86 | The worker gets the task at the head of the queue, or waits behind the others. |
| `MrSchedule.Scheduler.Handle` | mit6.824/src/mapreduce/schedule.go:51-108 | A message and its effects together are one step of the abstract scheduler; a worker that registers or succeeds is then busy or waiting, unless the phase has ended. |
| `MrJob.DoMap` | mit6.824/src/mapreduce/common_map.go:69-89 | File r lists exactly the pairs whose key has hash remainder r, each as often and in the order in which they were emitted. |
| `MrJob.BucketPicks` | mit6.824/src/mapreduce/common_map.go:83-89 | The same of the function that the rest of the pipeline is stated with. |
| `MrJob.FlattenAt` | mit6.824/src/mapreduce/common_reduce.go:53-71 | What a reduce task reads is the files of all map tasks one after the other, each whole, and nothing else. |
| `MrJob.DoReduce` | mit6.824/src/mapreduce/common_reduce.go:53-101 | No file exactly if there are no pairs; otherwise the results for the groups of the sorted pairs. |
| `MrGroup.ReduceSorted` | mit6.824/src/mapreduce/common_reduce.go:87-101 | One call per distinct key; the output holds each key once, in increasing order, with `reduceF` of all values of the key in order, and no other key. |
| `MrGroup.ValuesAre` | mit6.824/src/mapreduce/common_reduce.go:87-99 | The values of a key are those of its pairs, each as often and in the order in which they occur. |
| `MrGroup.KeyLeIs` | mit6.824/src/mapreduce/common_reduce.go:73-75 | A key is not larger than another exactly if it is a prefix of it or smaller at the first place where they differ. |
| `MrJob.SortExists` | mit6.824/src/mapreduce/common_reduce.go:73-75 | What is asked of the library sort, a permutation in key order, can be kept. |
| `MrJob.Merge` | mit6.824/src/mapreduce/master_splitmerge.go:14-51 | Fails exactly if an output is missing; otherwise a table of every key once, in order, with its last value. |
| `MrPipeline.CallsExact` | mit6.824/src/mapreduce/common_reduce.go:87-101 | In each reduce task r, one call for each emitted key with hash remainder r and no other, with exactly the multiset of values emitted for the key. |
| `MrPipeline.MergedKey` | mit6.824/src/mapreduce/master_splitmerge.go:16-34 | After the merge every emitted key has the one value computed by its own bucket's task. |
| `MrPipeline.Sequential` | mit6.824/src/mapreduce/master.go:60-80 | A job fails exactly if for some remainder r no map task emits a key with hash remainder r; otherwise its output holds every emitted key once, in order, and no other, reduced from exactly its emitted values, for every number of buckets, hash and sort. |
| `MrPipeline.EmittedKeys` | mit6.824/src/mapreduce/common_map.go:69 | The keys of everything emitted are those that some map task emits for its input. |
| `MrPipeline.JobIsDirect` | mit6.824/src/mapreduce/master_splitmerge.go:35-48 | For an order-insensitive reduction the output is the table of the direct group-by. |
| `MrPipeline.SameOutput` | mit6.824/src/mapreduce/master_splitmerge.go:35-48 | So two runs over the same inputs, with any numbers of buckets, hashes and sorts, give the same output. |

## Left out

- LinKv.CheckOperations: asks for distinct times, because the code's sort may put equal times in either order; a partition is checked when its result is read, since the partitions share nothing but the kill flag.
- LinPopcount.PopIsCount: counts in 64-bit arithmetic, as the code does; a bitset of 2^64 positions would wrap around.
- LinCache.HashOf: bucket keys are the numeric values of the hashes.
- RdtWire.WireDelivery: assumes the slack of 20, which is exact, and a queue that does not overrun.
- RdtSender.SenderSide.FromUpperLayer: if the queue would be written outside its array, only that is reported, because the program's behaviour is then undefined; `RdtSession.Session.Accept` does the same.
- RdtSender.SenderSide.FromLowerLayer: does not go on after an acknowledgement that makes the numbers jump, of which `RdtSenderWindow.SenderWindow.Ack` says what it does to the window.
- RdtChecksum.RoundTrip: size bytes of 128 and more, which no sender builds, are outside the model; of corruption only that of a single byte is treated, in `OneByteRejected`.
- RaftSafety.StateMachineSafety: assumes the leader guards, no commit by replies out of office, and that choosable entries are spared; the examples in `RaftLimits` and `RaftCounting` show why.
- RaftServer.Raft.OnAppendReply: asks that the middle match index lie inside the log, which `RaftSafety.CommitPointInLog` proves for leaders; the value model leaves the commit index alone otherwise.
- MrPipeline.Sequential: file contents are lists of pairs, so that JSON encoding and decoding are taken to be inverse; a stale output file of an earlier job is not modelled.
- MrJob.Merge: the map's keys are put in order as they are collected instead of being sorted afterwards.
- The transport's deadlines are real numbers, and the one clock of the simulator is the time it is armed for.
- LinEvents.CheckEvents: asks that every call has a return and every return a call, since the code takes a call without a return for a return; models one partition, which is what models without an event partition get.
- The checker's timeout.
- Raft's election and heartbeat timers, which may fire at any time, and the channel that resets the former; what a routine does between two locked regions is part of the next one.
- The order in which applied batches reach the application channel, since separate goroutines send them.
- What must happen in the end; that it always can is proved of the scheduler and the transport (`CanFinish`, `NeverStuck`).
- The simulators, RPC layers and tests.
- The key/value and shard servers, whose handlers are empty, and the DPDK exercise.

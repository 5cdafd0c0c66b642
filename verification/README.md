# A replicated task manager, verified

The program is a task manager for a swarm of agents, replicated by Multi-Paxos. Agents create tasks,
claim them under fencing tokens and leases, complete them with children and merges, share one main
lock, and halt together when a task fails. Each replica runs the same deterministic state machine on
the same sequence of decided requests. This project models both halves, the line between them, and
the two places where requests leave memory: the wire and the decision log.

## What is modelled

**The task machine.** `TaskManagerDb.Db` is the class of task_manager_db.hh: fields changed in
place, handlers with the source's loops and branches. `TaskMachine.Process` is the same machine as a
function of state, request and clock, and every handler is proved to take exactly its step.
`TaskAnswers` says, without the handlers' own helpers, exactly when each request is granted and with
which answer it is refused; `TaskOutcomes` what a client gets for a successful one; `TaskInvariants`
what each request keeps; `TaskRuns` what follows over whole runs.

**The replica.** `PaxosReplica.PtPaxosReplica` is the class pt_paxos_replica with its deque, its
moving base and its loops. `ReplicaSpec` gives each handler as a step function; each method is
proved to take that step. `Duties` describes those steps field by field and message by message:
majorities as more than half, logs slot by slot. Log positions are absolute slots.

**The cluster.** `Cluster` is n replicas and everything they ever sent. Packets may be lost, delayed
and reordered; any replica's timer may fire at any moment; any client may propose anywhere at any
moment. `History` records, for the proof only, the full log of every round since slot 0, who has
accepted how much of it, and who promised what; a replica's log is the part of its round's log from
its base on. `Safety.RunOk` proves the invariant for every run of every length and every n;
`Evolution`, `LocalSteps`, `GlobalSteps`, `LeaderSteps`, `FollowerSteps`, `ElectionSteps`,
`Handlers` and `Delivery` prove its cases. `Agreement`, `Completeness` and `Promptness` state what
holds between replicas, `Terms` who leads and what a leader knows of the others, `Answers` and `Waiting` what becomes of a client, `Journal` what a replica's
decision log holds. `ForeignReply`, `LostClients` and `MissedLine` are runs that go wrong, built from
the steps in `Trio`.

**The wire and the log.** `Json` is a JSON tree with the conversions of nlohmann::json as the source
uses them, including its casts to 64-bit and 32-bit integers. `Wire` prints and parses requests,
`Transport` replica messages, `DecisionLog` the lines of a decision log, whoever wrote them;
`WireNames` gives all three by name: which key, word and cast stands for which field. `Replay`
is the main loop of tm-replay: lagging databases advanced by wall clock, and the events it derives.

## Assumptions

- A handler, with everything it sends, is one atomic step. The source suspends between the sends of
  `send_propose` (tm-paxos-internal.hh:151) and reads its round and log again afterwards; what
  happens if it steps down in that window is not modelled.
- A packet is delivered at most once. `become_leader` counts responses, not senders
  (tm-paxos.cc:153-154).
- Replicas keep their state: no crash loses it. The repository declares state transfer out of scope
  (docs/PARTNER_ONBOARDING.md:130-132).
- Every replica starts believing replica 0 leads, as tm-paxos.cc:270 and 282 set it.
- Tokens, slots, rounds and sequence numbers do not wrap around inside a replica. On the wire they
  do: there a request or message survives if and only if its numbers fit.

## Where the code is not what its documentation says

- A waiting client is known by slot alone and is not forgotten when its leader steps down
  (tm-paxos.cc:130-138). So propose-and-wait does not always return the outcome of one's own request:
  `ForeignReply.AnsweredForAnother` is a run in which it returns another client's.
  `Answers.OwnRequestAnswered` states what every answer is, and that it is one's own exactly when no
  leader, from the round of the proposal to the round of the log it was applied from, started from a
  log that ended at or below its slot.
- For the same reason an accepted client need not be answered at all. In each step a waiting client is
  answered exactly when its slot is applied, unless a new leader's catch-up applies it (tm-paxos.cc:67-71)
  or another client has been accepted at that very slot, which replaces it (tm-paxos-internal.hh:199);
  `Waiting.FateOfClient` and `Waiting.FateOverRun` state this, `LostClients.ClientPassedOver` and
  `LostClients.ClientReplaced` are runs in which each happens.
- tm.hh:116 says a completed implement task always has a merge task; it has one
  exactly when it names a nonempty branch, which `TaskOutcomes.CompleteDelivers` states.
- tm-replay.cc:384-386 takes replica 0 to have caught up with each entry because it was applied no
  later than it was stamped. It is applied later, if anything. `Replay.KeepsUp` gives the exact
  condition, `Replay.FallsBehind` a log that misses it.
- tm-server.cc:44-45 calls the replicas' logs byte-identical, and docs/PARTNER_ONBOARDING.md:86-87
  has them replay alike. Each line carries the local clock; and the catch-up loop of `become_leader`
  applies without logging (tm-paxos.cc:67-71), so a log can even miss lines. `MissedLine.LogFallsShort`
  is a run after which a replica's log replays to an empty table while its database holds a task.
  `Journal.LogIsComplete` gives the exact condition under which a log has all its lines, and
  `Journal.OwnLogReplays` what then holds: the log replays to the replica's database.

## Model

| member | source | states |
|---|---|---|
| Agreement.OneCommittedSequence | tm-paxos.cc:118-247 | After every action of every run there is one sequence of client proposals, only ever extended, of which every replica has applied exactly a prefix, each value once and in order: its database is the replay of that prefix, and what it keeps of the decided log is that part of the sequence. |
| Agreement.Agreement | tm-paxos-internal.hh:115-140 | Any two replicas, even at different moments of a run, have applied the same values and have equal databases when they have applied equally many slots, and hold the same value at any decided slot both still keep. |
| Safety.StepOk | tm-paxos.cc:118-247 | Every possible action keeps the whole invariant, never lowers a decided or applied cursor, only extends the committed sequence, and changes the rounds' logs only by an election or by an accepted proposal. |
| Safety.RunOk | tm-paxos.cc:118-247 | The invariant holds after every run, for every number of replicas. |
| History.LeaderCompleteness | tm-paxos.cc:55-62 | What a majority accepted in a round is, slot for slot, in the log of every later round, and was already there when that log was adopted. |
| Completeness.WinnerHasHeld | tm-paxos.cc:55-62 | If at some moment of a run the logs of one round on more than half of the replicas reach a slot, then the log any leader of a later round starts from, at whatever later moment, reaches it too and holds the same values wherever both still carry them. |
| History.ChosenAgree | tm-paxos-internal.hh:95-101 | Any two prefixes chosen by majorities, in whatever rounds, agree as far as the shorter goes. |
| Agreement.NewestLeaderHasAll | tm-paxos.cc:55-62 | The leader of the newest round has everything any replica in that round or an older one has decided, with the same values. |
| Agreement.TruncationSafe | tm-paxos-internal.hh:103-109 | Nobody has truncated past anybody's log end. |
| Agreement.NoGap | tm-paxos.cc:184-213 | A PROPOSE that is not stale never starts past its receiver's end, so the gap reset is never taken; in a new round it ends above everything the receiver decided or truncated, so removing the tail stops in time. |
| Agreement.DeliveriesAreLegal | tm-paxos.cc:128-231 | Every message still under way meets what its receiver's handler takes for granted. |
| Agreement.CatchUpReaches | tm-paxos.cc:64-73 | A candidate's own log reaches the base of any log it may adopt, so the catch-up loop skips no slot. |
| LocalSteps.CatchUpIsApply | tm-paxos.cc:64-73 | Once the loop reached the new base, raising the applied cursor afterwards changes nothing. |
| Agreement.StaleAcksHarmless | tm-paxos-internal.hh:95-109 | Acknowledgements left over on a replica that stepped down never decide anything; a leader never truncates past its own end. |
| Agreement.CursorsOrdered | tm-paxos-internal.hh:55-59 | Base, applied, decided and end stay in this order, and decided and applied never go back, whatever happens next. |
| Promptness.NothingLeftUnapplied | tm-paxos-internal.hh:115-135 | In every state of every run each replica has applied exactly what it knows to be decided. |
| Agreement.RoundsHaveOneOwner | tm-paxos.cc:26-53 | A leader owns its round and has accepted its own log in it, two leaders are in different rounds, and a candidate's responses come from different replicas. |
| ElectionSteps.NextRoundOwner | tm-paxos.cc:28 | The round a candidate picks is above every round it has seen and belongs to it. |
| Agreement.OneLogPerRound | tm-paxos-internal.hh:143-157 | All PROPOSEs ever sent in one round, by any resend, are parts of one log. |
| Agreement.SameRoundSameLog | tm-paxos.cc:191-203 | Two replicas that last accepted in the same round hold the same value wherever their logs overlap. |
| Answers.OwnRequestAnswered | tm-paxos-internal.hh:177-214 | There is one committed sequence such that every answer any client of any replica ever got is the outcome of the value at its slot, on the state left by all earlier slots, under that value's clock. The value is its own if, and where no value is proposed twice only if, every leader between the round it was proposed in and the round it was applied from started from a log that already reached beyond the slot. |
| Answers.AnsweredInOrder | tm-paxos-internal.hh:177-214 | Where no value is proposed twice, a client told the outcome of its own request has a slot beyond everything any replica had decided when it was accepted. |
| Answers.CarriedIsSame | tm-paxos.cc:98-101 | A slot below the end of every log adopted in between holds the same value in the later round as in the earlier one. |
| Answers.Origin | tm-paxos.cc:98-101 | Every slot of every round came down, unchanged, from a round whose own leader appended it. |
| Waiting.LeaderKeepsTickets | tm-paxos-internal.hh:200-206 | Clients waiting on the present leadership have slots not yet applied, below the next one handed out, each with its own value in the log. |
| Waiting.FateOfClient | tm-paxos-internal.hh:128-133 | In every step of every run, a waiting client is answered if and only if its slot is applied in that step, the step is not one that makes the replica leader of a log whose base is beyond the slot, and no other client is accepted at the slot in it; and it stops waiting without an answer if and only if another client is accepted at that very slot. |
| Waiting.FateOverRun | tm-paxos-internal.hh:200-213 | By any later moment a waiting client has been answered if and only if its slot has been applied since, was not applied by a catch-up and was not taken by another client; it still waits if and only if its slot was not taken and is not applied or was passed over. |
| Waiting.AppliedIsAnswered | tm-paxos-internal.hh:128-135 | The step that applies the slot of a client of the present leadership answers it, even if the replica stops leading in that step. |
| Waiting.PassedOverForever | tm-paxos.cc:66-73 | A client whose slot is applied while it still waits waits forever; no reply for its slot is ever added. |
| Waiting.GoneForever | tm-paxos-internal.hh:199 | A client that was replaced, and so waits no longer and was not answered, is never answered later. |
| LostClients.ClientPassedOver | tm-paxos.cc:66-73 | For any three requests, a run of fourteen actions after which the slot of a waiting client is applied and nobody has been answered. |
| LostClients.PassedOverStays | tm-paxos.cc:66-73 | After that run the client waits, unanswered, whatever happens. |
| LostClients.ClientReplaced | tm-paxos-internal.hh:200-206 | For any two requests, a run of nine actions in which a waiting client's slot, not yet applied, is handed out to another client, which takes its place. |
| LostClients.ReplacedForever | tm-paxos-internal.hh:200-206 | After that run the first client is never answered, whatever happens. |
| ForeignReply.AnsweredForAnother | tm-paxos.cc:130-138 | A run of nine actions after which a client has been told the outcome of another client's request. |
| Journal.StepGoes | tm-paxos.cc:66-73 | In every step, what a replica applies it also logs, in order and task lists apart, except what it catches up on when it becomes leader. |
| Journal.LogIsComplete | tm-paxos-internal.hh:111-135 | A replica's decision log is exactly the applied part of the committed sequence, task lists apart, if and only if, whenever it became leader, it had applied everything below the base of the log it adopted or lacked only task lists there; otherwise it is shorter by what those catch-ups passed over. |
| Journal.OwnLogReplays | tm-server.cc:41-68 | Under that condition, the lines a replica wrote, read back and replayed, give its own database. |
| MissedLine.AppliedUnlogged | tm-paxos.cc:67-71 | For any two requests, a run of ten actions after which a replica has applied the first and logged nothing. |
| MissedLine.LogFallsShort | tm-paxos.cc:67-71 | So the log can replay to an empty table while the database holds a task. |
| Agreement.EveryReplicaValid | tm-paxos-internal.hh:111-135 | Every invariant of the task machine holds on every replica after every run. |
| Agreement.FurtherAlong | tm-paxos-internal.hh:111-135 | A replica that has applied at least as much is a later state of the same task machine. |
| Agreement.FencedEverywhere | tm-paxos-internal.hh:111-135 | A token fenced on one replica is refused, and changes nothing, on every replica that has applied as much. |
| Quorums.QuorumIs | tm-paxos-internal.hh:98 | So many replicas are a quorum if and only if they are more than half. |
| Quorums.CommitPointIsMajority | tm-paxos-internal.hh:95-101 | A slot is at or below the commit point if and only if more than half of the replicas have acknowledged that far. |
| Quorums.SortPermutes | tm-paxos-internal.hh:96-97 | Sorting keeps the acknowledgements. |
| Quorums.CommitPointMonotone | tm-paxos-internal.hh:95-101 | More acknowledgements never lower the commit point. |
| Quorums.MinBelowCommitPoint | tm-paxos-internal.hh:103-109 | The truncation point never overtakes the commit point. |
| Terms.AlwaysFit | tm-paxos-internal.hh:95-140 | After every run every replica has applied what it knows decided, which includes everything more than half have acknowledged to it; and a leader has accepted its own round, acknowledged its own whole log, and truncated exactly up to the least acknowledgement. |
| Terms.ElectedExactly | tm-paxos.cc:150-157 | A replica that does not lead takes office in a step if and only if the step brings it a PREPARE of the round it stands in, and the responses, with this one, first exceed half of the replicas. |
| Terms.TakesOffice | tm-paxos.cc:55-116 | It then starts from the first of the responses with the newest accepted round and, among those, the longest log; assumes of everyone else just that log's base; and sends everyone else the whole of it. |
| Terms.DeposedExactly | tm-paxos.cc:128-166 | A leader leaves office in exactly the steps that bring it a message of a newer round; as long as it stays it is in the same round, no acknowledgement it holds goes down, and another replica's entry is the larger of what it was and what that replica acknowledges in the step. |
| Terms.KnowsTheMost | tm-paxos.cc:158-164 | What a leader holds for another replica is the largest of the base its term started from and every slot that replica has acknowledged to it, in its round, since. |
| Terms.FollowsItsLeader | tm-paxos.cc:167-231 | Every PROPOSE that reaches a replica and is no older than its round starts within its log and makes it follow the sender: it takes nothing from one of the round it already follows that is shorter than its log, and takes any other as Duties.FollowerTakes says. |
| Duties.Collects | tm-paxos.cc:150-157 | A PREPARE of another election only joins its round; one of this election is added to the responses, and makes a leader exactly when the responses then first exceed half of the replicas. |
| Duties.NewLeader | tm-paxos.cc:55-116 | The new leader's log, base, cursors and acknowledgements are those of the best response, and everyone else is sent that log once. |
| Duties.LeaderHears | tm-paxos.cc:158-166 | An ACK of the leader's round keeps the larger of what was known and what is heard of the sender, leaves every other entry alone, and the leader settles; nothing is sent. |
| Duties.LeaderSettles | tm-paxos-internal.hh:95-140 | A leader then has decided exactly what it had or more than half have acknowledged, applied all of that, and dropped exactly what all have acknowledged. |
| Duties.LeaderProposes | tm-paxos-internal.hh:193-213 | A leader registers the client at its next slot, appends the request under its own clock, counts it as its own acknowledgement, sends everyone else what they miss, and settles. |
| Duties.OthersRefuse | tm-paxos-internal.hh:184-191 | Anyone else answers Busy under the request's serial number, and nothing happens. |
| Duties.LeaderResends | tm-paxos.cc:232-238 | A leader's timer sends everyone else its log from what they have acknowledged on, and changes nothing. |
| Duties.FollowerStands | tm-paxos.cc:26-53 | A follower whose leader was silent stands for its own round in the next block of n rounds, reports its own log to itself, and asks everyone else once. |
| Duties.FollowerWaits | tm-paxos.cc:239-244 | A follower that heard from its leader does nothing. |
| Duties.IgnoresOld | tm-paxos.cc:140-141 | A message of an older round changes nothing and is not answered. |
| Duties.Promises | tm-paxos.cc:142-149 | A PROBE makes the replica join its round, behind the sender if it is newer, and is answered with the whole log, its base and the round it was accepted in. |
| Duties.IgnoresAck | tm-paxos.cc:158-167 | A replica that does not lead takes nothing from an ACK but its round. |
| Duties.TakesNothing | tm-paxos.cc:171-182 | A PROPOSE of the accepted round that is shorter than the log makes the replica follow its sender and acknowledge its whole log, no more. |
| Duties.FollowerTakes | tm-paxos.cc:184-231 | Any other one of its round or a newer one: the log then ends where the message does, with the message's value at each of its slots and the old one below; what the message says is decided is decided and applied; what it says is truncated is, as far as applied; and the whole log is acknowledged to the sender. |
| ReplicaSpec.BestOf | tm-paxos.cc:57-62 | The chosen response is one of those received and no response beats it. |
| ReplicaSpec.BestIsFirst | tm-paxos.cc:57-62 | Among equals it is the first, as std::max_element returns it. |
| PaxosReplica.PtPaxosReplica.constructor | tm-paxos.cc:13-19 | A new replica is in the start state of the cluster. |
| PaxosReplica.PtPaxosReplica.TryDecide | tm-paxos-internal.hh:95-101 | In place, decided rises to what more than half of the replicas have acknowledged and to nothing more (Duties.LeaderSettles), as the cluster's step does. |
| PaxosReplica.PtPaxosReplica.TryTruncate | tm-paxos-internal.hh:103-109 | The loop drops exactly the entries everyone has acknowledged. |
| PaxosReplica.PtPaxosReplica.ApplyDecided | tm-paxos-internal.hh:115-140 | Decides, applies in slot order, logs, answers the waiting clients and truncates as the cluster's step does. |
| PaxosReplica.PtPaxosReplica.OnApply | tm-paxos-internal.hh:120-127 | A line is written for the value exactly unless its path is that of a task list. |
| PaxosReplica.PtPaxosReplica.SendPropose | tm-paxos-internal.hh:143-157 | The loop sends each other replica its missing part of the log. |
| PaxosReplica.PtPaxosReplica.StartElection | tm-paxos.cc:26-53 | Picks the next own round, asks everyone else once, and, alone, leads at once: the cluster's step, message for message. |
| PaxosReplica.PtPaxosReplica.BecomeLeader | tm-paxos.cc:55-116 | Catches up, adopts the best log and proposes it, as the step function says. |
| PaxosReplica.PtPaxosReplica.CatchUp | tm-paxos.cc:66-73 | The catch-up loop applies without logging or answering anyone and leaves both cursors at the new base or above. |
| PaxosReplica.PtPaxosReplica.WriteValues | tm-paxos.cc:191-203 | The loop over values skips, overwrites and appends to the closed form of the written log. |
| PaxosReplica.PtPaxosReplica.AcceptValues | tm-paxos.cc:181-213 | Reset on a gap, write, and cut the tail of an older round, in one closed form. |
| PaxosReplica.PtPaxosReplica.OnPropose | tm-paxos.cc:167-231 | A follower's whole PROPOSE branch, the stale retransmission included. |
| PaxosReplica.PtPaxosReplica.Receive | tm-paxos.cc:128-231 | One message, through every branch (step-down, stale, PROBE, PREPARE, ACK, PROPOSE), makes the cluster's step and sends its messages; what each branch does is Duties.IgnoresOld, Promises, Collects, LeaderHears, IgnoresAck, TakesNothing and FollowerTakes. |
| PaxosReplica.PtPaxosReplica.Timeout | tm-paxos.cc:232-245 | A leader retransmits and applies, a follower whose leader was silent stands for election: the cluster's step, message for message. |
| PaxosReplica.PtPaxosReplica.ProposeAndApply | tm-paxos-internal.hh:177-214 | Refuses with "busy" exactly when not leading; otherwise appends, proposes to all and applies as the cluster's step does. |
| TaskManagerDb.Db.constructor | task_manager_db.hh:45-59 | An empty database, nobody holding the lock, both counters at 1, not halted. |
| TaskManagerDb.Db.Create | task_manager_db.cc:34-76 | In place, with every check in the source's order, makes the change and gives the answer of which TaskAnswers.CreateAnswers and TaskOutcomes.CreateDelivers speak. |
| TaskManagerDb.Db.Claim | task_manager_db.cc:77-151 | The two scanning loops grant the task, or none, that TaskAnswers.ClaimAnswers, TaskRuns.ClaimIsFair and ClaimGrants describe. |
| TaskManagerDb.Db.Heartbeat | task_manager_db.cc:152-163 | Renews the lease of the token's owner and of nobody else (TaskAnswers.HeartbeatAnswers), in place. |
| TaskManagerDb.Db.Complete | task_manager_db.cc:165-230 | The loop over children, the merge and the closing of the parent make the change TaskOutcomes.CompleteDelivers describes, in the cases TaskAnswers.CompleteAnswers names, minting ids in the source's order. |
| TaskManagerDb.Db.Fail | task_manager_db.cc:232-255 | Fails the owner's task and halts the swarm in its name, the change TaskAnswers.FailAnswers describes and TaskRuns.HaltedIff counts. |
| TaskManagerDb.Db.ListTasks | task_manager_db.cc:256-272 | The loop returns the listed summaries in mint order and changes nothing. |
| TaskManagerDb.Db.AcquireLock | task_manager_db.cc:274-305 | Grants, refuses or reports busy exactly as TaskAnswers.AcquireAnswers and TaskRuns.LockKept have it, in place. |
| TaskManagerDb.Db.ReleaseLock | task_manager_db.cc:307-313 | Only the lock's own nonzero token empties it. |
| TaskManagerDb.Db.ResumeSwarm | task_manager_db.cc:315-324 | Clears the halt and reports whether there was one. |
| TaskManagerDb.Db.ProcessReq | task_manager_db.cc:8-12 | The class is the state machine: new state and response are those of Process. |
| TaskIds.FormatIdIs | task_manager_db.cc:14-16 | An id is `t/` and the number in decimal, at least four digits, padded with zeros and with no other leading zero. |
| TaskIds.FormatIdInjective | task_manager_db.cc:14-16 | Different sequence numbers format to different ids, so no insertion ever meets an existing key. |
| TaskInvariants.ProcessKeepsValid | task_manager_db.cc:8-12 | Every request keeps the table well formed (order lists exactly the keys, in mint order, without repeats; depths 0 to 5; a token exactly on in-progress tasks, no number held twice; a halt names its failed task and reason). |
| TaskInvariants.ProcessMovesTasks | task_manager_db.cc:222-227 | Done and failed are final down to the whole record; no task is dropped, respecified or put back to pending. |
| TaskInvariants.ProcessKeepsStarts | task_manager_db.cc:22-30 | The order in which tasks were started can be extended by every request so that each task's dependencies come before it and are done. |
| TaskRuns.FailuresDoNotMutate | task_manager_db.hh:4-6 | A request answered with an error leaves the state exactly as it was. |
| TaskRuns.DeadTokenIsPowerless | task_manager_db.cc:34-76 | A request carrying a token nobody holds, or 0, is refused and changes nothing, even where the handler does not test for 0. |
| TaskRuns.FencedForever | task_manager_db.cc:152-255 | A token that is minted and held by nobody stays so, and every request carrying it is refused without effect, for the whole run. |
| TaskRuns.OneGrant | task_manager_db.hh:45 | A number belongs to one grant forever: one task, or one holding of the main lock. |
| TaskRuns.EndedIsDead | task_manager_db.cc:103-122 | Whatever takes a task from its owner, its own completing or failing or another claim, leaves the token held by nobody. |
| TaskRuns.FinishingEnds | task_manager_db.cc:222-255 | A complete or fail that succeeds under the owner's token does take the task from it. |
| TaskRuns.EndedForever | task_manager_db.cc:152-255 | So from a completion, a failure or a takeover on, no request carrying the old token is ever obeyed again. |
| TaskRuns.RunMovesTasks | task_manager_db.cc:222-227 | Finality over whole runs. |
| TaskRuns.StartedPast | task_manager_db.cc:22-30 | Everything a started task depends on, through any chain, is done. |
| TaskRuns.NoStartedCycle | task_manager_db.cc:182-196 | No dependency cycle runs through a started task, although children's dependencies are not checked. |
| TaskRuns.Conservation | task_manager_db.cc:57-75 | The number of tasks is exactly the successful creates plus completed children plus one merge per implement task completed with a branch. |
| TaskRuns.ClaimIsFair | task_manager_db.cc:77-151 | A claim returns the earliest task, of the preferred type if there is one, whose dependencies are all done and which is pending or has been silent for more than 45 seconds; and none exactly when halted or there is no such task. |
| TaskRuns.ClaimGrants | task_manager_db.cc:103-122 | The claimant gets that task and its spec with a nonzero number nobody held, in progress as of now; the previous holder's number is dead, and nothing else changes. |
| TaskRuns.ClaimTakesOne | task_manager_db.cc:77-151 | A claim takes exactly its own task out of the eligible ones. |
| TaskRuns.Drain | task_manager_db.cc:77-151 | At one moment m eligible tasks are drained by exactly m claims, each once; further claims get nothing. |
| TaskRuns.OwnerKeepsTask | task_manager_db.cc:18-20 | An owner keeps its task unless its own token ends it or a claim comes more than 45 seconds after its last heartbeat. |
| TaskRuns.LostOnlyByEnding | task_manager_db.cc:77-163 | Over a run, whoever lost a task lost it at such a step, and its token is fenced at the end. |
| TaskRuns.LockKept | task_manager_db.cc:274-313 | A held main lock changes hands at a step if and only if its token releases it or another acquires it while the holder's merge task is missing, not in progress, silent for more than 45 seconds or another agent's; the old token is then dead. |
| TaskRuns.LockLostOnlyByEnding | task_manager_db.cc:274-313 | The same over runs, with the displaced token fenced at the end. |
| TaskRuns.HaltedIff | task_manager_db.cc:232-255 | Halted if and only if some task failed after the last resume. |
| TaskRuns.HaltedRunDrains | task_manager_db.cc:77-90 | While halted, the set of owned tasks with their tokens only shrinks. |
| TaskAnswers.AnswersTheRequest | task_manager_db.cc:8-12 | Every answer is of the request's kind and carries its serial number. |
| TaskAnswers.CreateAnswers | task_manager_db.cc:34-76 | A create succeeds if and only if it names no creator, or one it owns at depth 4 or less, and all dependencies exist; it is Invalid exactly for a creator without a token, Fenced for a known creator it does not own, DepthExceeded for one at depth 5, NotFound for an unknown creator or, the creator being right, an unknown dependency. |
| TaskAnswers.ClaimAnswers | task_manager_db.cc:77-151 | In a valid state a claim answers none if and only if the swarm is halted or every task whose dependencies are all done is done, failed, or in progress with a heartbeat at most 45 seconds old; it never fails, and tells of the halt exactly when there is one. |
| TaskAnswers.HeartbeatAnswers | task_manager_db.cc:152-163 | A heartbeat succeeds exactly under the owner's token, sets that task's heartbeat to now and nothing else; Fenced is exactly a wrong token on a known task, NotFound an unknown one. |
| TaskAnswers.CompleteAnswers | task_manager_db.cc:165-180 | A complete succeeds if and only if its token owns the task and it has no children or the task's depth is at most 4; DepthExceeded is exactly an owned task with children at depth 5, Fenced a wrong token on a known task, NotFound an unknown one. |
| TaskAnswers.FailAnswers | task_manager_db.cc:232-255 | A fail succeeds exactly under the owner's token; then the task is failed for the reason given, unowned, otherwise as it was, and the swarm halted in its name. |
| TaskAnswers.AcquireAnswers | task_manager_db.cc:274-305 | The lock is granted if and only if the merge task is in progress under the token given and the lock is free, or its holder's merge task is missing, not in progress, silent for more than 45 seconds or another agent's; otherwise it is Busy for the owner, Fenced for a wrong token on a known task, NotFound for an unknown one. Granted, it is the agent's, for that task, under a number nobody held. |
| TaskAnswers.ReleaseAnswers | task_manager_db.cc:307-313 | A release succeeds if and only if it carries the lock's own nonzero number, and empties the lock and changes nothing else; otherwise it is Fenced. |
| TaskAnswers.ResumeAnswers | task_manager_db.cc:315-324 | A resume always succeeds, tells whether there was a halt, and ends it. |
| TaskAnswers.ListAnswers | task_manager_db.cc:256-272 | A list always succeeds, changes nothing and shows the rows of TaskOutcomes.ListsExactly. |
| TaskOutcomes.CompleteDelivers | task_manager_db.cc:165-230 | The ids returned by a successful complete name exactly the new tasks: the children as described, one level down; a merge exactly for an implement task with a nonempty branch, claimable at once; nothing else changes. |
| TaskOutcomes.ListsExactly | task_manager_db.cc:256-272 | A list shows exactly the tasks with the status asked for, if one is, and of its own agent, if it asks so, each once, in the order they were minted, each as its id, type, title, status, owner and branch. |
| TaskOutcomes.CreateDelivers | task_manager_db.cc:34-76 | The id returned by a successful create names a new pending task, as described, below its creator or at the root. |
| Json.All | tm.cc:155-159 | Converting a list succeeds exactly when every element converts, and converts each. |
| Json.ValuesInKeyOrder | tm.cc:156 | A loop over an object visits every value once, under keys that increase. |
| Json.AllFailsEarly | tm.cc:155-159 | The first element that fails decides the error. |
| Wire.EnumsInverse | tm.cc:16-46 | A string is read as an enum value exactly when that value is printed as it. |
| Wire.SpecInverse | tm.cc:63-86 | A task spec survives printing and reading if and only if its depth fits an int. |
| Wire.ParseRequest | tm.cc:123-198 | The parser with its loop over children computes Parse, the first error included. |
| Wire.ToJsonRequestBody | tm.cc:244-285 | The printer with its loop over children computes Body. |
| Wire.RequestRoundTrip | tm.cc:229-285 | Parsing the printed path and body of any request gives it back if and only if its numbers fit. |
| Wire.ParsedSurvives | tm.cc:123-198 | Whatever a client sent, printing what was understood and parsing it again gives the same request. |
| Wire.TokensAreExplicit | tm.cc:109-118 | A request that must carry a token is understood only if the token is there and numeric, and with that token: none ever defaults to 0. |
| Transport.MessageToJson | tcp_transport.cc:17-46 | The loop over values computes ToJson. |
| Transport.MessageFromJson | tcp_transport.cc:48-72 | The loop over values computes FromJson, the first error included. |
| Transport.ValueRoundTrip | tcp_transport.cc:26-34 | A decided value survives if and only if it fits. |
| Transport.MessageRoundTrip | tcp_transport.cc:17-72 | A replica message, with all its decided values, survives the wire if and only if its numbers fit. |
| Transport.PrintedApart | tcp_transport.cc:17-72 | Messages that print alike are alike. |
| WireNames.ReadsExactly | tm.cc:103-198 | A body is read as a request under a path if and only if that path and its keys spell that request: which key feeds which field, which words the enums are, what is read when a key is absent, and how numbers are cast. |
| WireNames.PrintsExactly | tm.cc:220-285 | A request whose numbers fit is printed under a path and body that spell it, with exactly the keys of the fields it has. |
| WireNames.SpecPrints | tm.cc:63-74 | The same for a task spec. |
| WireNames.MessageReadsExactly | tcp_transport.cc:48-72 | A replica message is read from an object if and only if each key spells its field and each value its time, agent, serial, path and request. |
| WireNames.MessagePrintsExactly | tcp_transport.cc:17-46 | A message whose numbers fit is printed as an object that spells it and has exactly the nine keys. |
| DecisionLog.LineInverse | tm-server.cc:48-68 | A written log line is read back as the same request at the same clock. |
| WireNames.LineReadsExactly | tm-replay.cc:176-192 | A log line is read as an entry if and only if its keys spell it. |
| WireNames.LinePrintsExactly | tm-server.cc:57-64 | A line is written with exactly its six keys, the outcome under its own word among them. |
| DecisionLog.LoggedSuffices | tm-paxos-internal.hh:120-127 | Leaving task lists out of the log loses nothing. |
| DecisionLog.ReplayedLogIsDb | tm-replay.cc:155-196 | Reading lines that cover all of a sequence of decided values but its task lists, and replaying them, gives the database of that sequence, whenever each was applied. |
| Replay.Reach | tm-replay.cc:290-303 | Advancing stops at the first entry applied after the given time. |
| Replay.AdvanceTwice | tm-replay.cc:290-303 | Advancing twice is advancing once to the later time. |
| Replay.AdvancedIs | tm-replay.cc:384-389 | Advanced to every event's clock in turn, a replica stands where one advance to the latest clock puts it. |
| Replay.AdvancedApplies | tm-replay.cc:290-303 | In a log whose times never go back that is every entry applied by the clock of some event seen, and no other. |
| Replay.KeepsUp | tm-replay.cc:384-389 | Replica 0 has caught up with an entry if and only if it and all before it were applied by the clock of some entry so far; an entry without a time of its own counts as applied when it was stamped. |
| Replay.FallsBehind | tm-replay.cc:384-389 | A log of one line, applied a second after it was stamped, in which it has not. |
| Replay.Replayer.AdvanceReplicaTo | tm-replay.cc:290-303 | The loop moves one replica's database and cursor, and no other's. |
| Replay.LoadOwners | tm-replay.cc:210-222 | The loop over a dump gives every task's owner. |
| Replay.FindHandovers | tm-replay.cc:399-416 | The loop over tasks in key order gives the handovers. |
| Replay.DerivedIsMeaning | tm-replay.cc:396-451 | The events read off two successive states are exactly what the request meant: a reclaim for a claim that takes over an expired lease between two different named agents, a lock change for each acquisition and release, a rejection for each refusal, and nothing for anything else. |
| Replay.Replayer.Run | tm-replay.cc:366-451 | The whole loop: the leading database is the replay of the log, every other one has been advanced as above, and the events are those meanings in order. |

## Left out

- HTTP, redirects, sockets, coroutine scheduling, the simulated network and its random delays: the cluster's network is a bag of packets.
- Liveness, election timing and timeouts: a timer may fire at any moment; nothing is said about when.
- Crashes that lose state, restart and state transfer.
- The suspension points inside a broadcast, and with them the fact that the pending entry of an answered client is erased when that client resumes, not when it is answered.
- The file behind the decision log, and the clock and error code each of its lines carries: a replica's log is the sequence of values it wrote lines for.
- PaxosReplica.PtPaxosReplica.TryTruncate: requires the smallest acknowledgement to be within the log, since removing the front of an empty deque is undefined; `Agreement.StaleAcksHarmless` shows it always is.
- PaxosReplica.PtPaxosReplica.Receive: requires what `Agreement.DeliveriesAreLegal` proves of every message under way; out-of-range vector indices are not modelled. A few step functions carry guards the source lacks (`CanApply`, the end of the log in `TruncateTo`); `Agreement.CursorsOrdered`, `Agreement.NoGap` and `Agreement.StaleAcksHarmless` show them idle.
- Quorums.SortPermutes: std::sort, std::min_element and std::max_element are functions with their contracts, not the library's algorithms.
- Answers.OwnRequestAnswered: the rounds a request was proposed in and its answer applied under are recorded beside the answer for the statement; the source does not keep them, and does not test them. That an answer which was not carried down is somebody else's is claimed for runs in which no value (time, agent, serial and request) is proposed twice; otherwise it may be an equal value.
- Unused or descriptive state: the leftovers pending_ and pending_time_, the batching flags, the performance counters, clocks of last contact, log output and human-readable error messages.
- TaskRuns.OwnerKeepsTask: the clock difference is not a 64-bit one.
- JSON text and UTF-8; numbers that are not integers or do not fit 64 bits, which nlohmann::json keeps as floating point.
- Response serialization (tm.cc:200-325) and summaries, hashing, deduplication and file output of tm-replay.
- Transport.MessageFromJson: a message of unknown type leaves its field unset in the source; here that value is a parameter.
- Replay.LoadOwners: the owner's token, loaded but never compared.
- Provenance of a root task's parent id and acyclicity of dependencies among tasks not yet started: the source checks neither.

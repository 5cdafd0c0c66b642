/** The replicated state machine of task_manager_db.cc, as a function of state, request and clock.
    TaskManagerDb is the class that changes its fields in place and is proved equal to it. */
module TaskMachine {
  import opened Common
  import opened TaskTypes
  import opened TaskIds

  datatype State = State(
    tasks: map<TaskId, TaskRecord>,
    order: seq<TaskId>,
    mainLock: MainLock,
    nextToken: Token,
    nextSeq: nat,
    halted: bool,
    haltedBy: Option<TaskId>,
    haltedReason: Option<string>)

  const INIT: State := State(map[], [], NO_LOCK, 1, 1, false, None, None)

  predicate LeaseExpired(t: TaskRecord, now: int) {
    now - t.heartbeat > LEASE_WINDOW_SECONDS
  }

  predicate RequiresSatisfied(tasks: map<TaskId, TaskRecord>, t: TaskRecord) {
    forall d | d in t.spec.requiresDeps :: d in tasks && tasks[d].status == Done
  }

  // A task may be handed out when its requirements are done and it is pending or its lease ran out.
  predicate Eligible(s: State, id: TaskId, now: int) {
    && id in s.tasks
    && RequiresSatisfied(s.tasks, s.tasks[id])
    && (s.tasks[id].status == Pending
        || (s.tasks[id].status == InProgress && LeaseExpired(s.tasks[id], now)))
  }

  // Does the request own the task: the token must be set and be the current one.
  predicate OwnsTask(s: State, id: TaskId, token: Token) {
    id in s.tasks && s.tasks[id].ownerToken != 0 && s.tasks[id].ownerToken == token
  }

  function PendingRecord(id: TaskId, spec: TaskSpec): TaskRecord {
    TaskRecord(id, spec, Pending, "", 0, 0, None, None, None)
  }

  // Mint the next id and insert a pending record. Like std::map::emplace, an existing key wins.
  function AddTask(s: State, spec: TaskSpec): State {
    var id := FormatId(s.nextSeq);
    s.(tasks := if id in s.tasks then s.tasks else s.tasks[id := PendingRecord(id, spec)],
       order := s.order + [id],
       nextSeq := s.nextSeq + 1)
  }

  function ChildSpec(spec: TaskSpec, parent: TaskId, depth: int): TaskSpec {
    spec.(depth := depth, parentId := Some(parent))
  }

  function AddChildren(s: State, specs: seq<TaskSpec>, parent: TaskId, depth: int): State {
    if |specs| == 0 then s
    else AddTask(AddChildren(s, Front(specs), parent, depth), ChildSpec(Last(specs), parent, depth))
  }

  // The ids minted for k new tasks starting from sequence number n.
  function MintedIds(n: nat, k: nat): seq<TaskId> {
    if k == 0 then [] else MintedIds(n, k - 1) + [FormatId(n + k - 1)]
  }

  function MergeSpec(parent: TaskRecord, branch: Option<string>): TaskSpec {
    TaskSpec(Merge, "merge " + parent.id, "", [parent.id], Some(parent.id), Some("main"),
             branch, parent.spec.depth)
  }

  predicate NeedsMerge(t: TaskRecord, branch: Option<string>) {
    t.spec.taskType == Implement && branch.Some? && branch.value != ""
  }

  function HandleCreate(s: State, r: Request): (State, Response)
    requires r.Create?
  {
    var fail := (e: Errc) => (s, CreateResp(r.serial, e, ""));
    if r.creatorTask.Some? && r.creatorToken.None? then fail(Invalid)
    else if r.creatorTask.Some? && r.creatorTask.value !in s.tasks then fail(NotFound)
    else if r.creatorTask.Some?
            && (s.tasks[r.creatorTask.value].status != InProgress
                || s.tasks[r.creatorTask.value].ownerToken != r.creatorToken.value) then fail(Fenced)
    else
      var depth := if r.creatorTask.Some? then s.tasks[r.creatorTask.value].spec.depth + 1 else 0;
      if r.creatorTask.Some? && depth > DEPTH_CAP then fail(DepthExceeded)
      else if exists d | d in r.spec.requiresDeps :: d !in s.tasks then fail(NotFound)
      else
        var parent := if r.creatorTask.Some? then r.creatorTask else r.spec.parentId;
        (AddTask(s, r.spec.(depth := depth, parentId := parent)),
         CreateResp(r.serial, Okay, FormatId(s.nextSeq)))
  }

  // First position at or after k of a task in mint order that may be claimed
  // (of the given type, if one is given); |order| if there is none.
  function FirstEligible(s: State, now: int, only: Option<TaskType>, k: nat): (i: nat)
    requires k <= |s.order|
    ensures k <= i <= |s.order|
    decreases |s.order| - k
  {
    if k == |s.order| || Picks(s, now, only, k) then k else FirstEligible(s, now, only, k + 1)
  }

  predicate Picks(s: State, now: int, only: Option<TaskType>, k: nat)
    requires k < |s.order|
  {
    && Eligible(s, s.order[k], now)
    && (only.Some? ==> s.tasks[s.order[k]].spec.taskType == only.value)
  }

  // The scan of task_claim: preferred type first, then everything.
  function PickIndex(s: State, now: int, prefer: Option<TaskType>): (i: nat)
    ensures i <= |s.order|
  {
    var first := FirstEligible(s, now, prefer, 0);
    if first < |s.order| then first else FirstEligible(s, now, None, 0)
  }

  function GrantTask(s: State, id: TaskId, agent: string, now: int): State
    requires id in s.tasks
  {
    s.(tasks := s.tasks[id := s.tasks[id].(status := InProgress, ownerAgent := agent,
                                           ownerToken := s.nextToken, heartbeat := now)],
       nextToken := s.nextToken + 1)
  }

  function HandleClaim(s: State, r: Request, now: int): (State, Response)
    requires r.Claim?
  {
    if s.halted then
      (s, ClaimResp(r.serial, Okay, true, "", DEFAULT_SPEC, 0, true, s.haltedBy, s.haltedReason))
    else
      var i := PickIndex(s, now, r.preferType);
      if i < |s.order| && s.order[i] in s.tasks then
        (GrantTask(s, s.order[i], r.agent, now),
         ClaimResp(r.serial, Okay, false, s.tasks[s.order[i]].id, s.tasks[s.order[i]].spec,
                   s.nextToken, false, None, None))
      else
        (s, ClaimResp(r.serial, Okay, true, "", DEFAULT_SPEC, 0, false, None, None))
  }

  function HandleHeartbeat(s: State, r: Request, now: int): (State, Response)
    requires r.Heartbeat?
  {
    if r.id !in s.tasks then (s, HeartbeatResp(r.serial, NotFound))
    else if !OwnsTask(s, r.id, r.token) then (s, HeartbeatResp(r.serial, Fenced))
    else (s.(tasks := s.tasks[r.id := s.tasks[r.id].(heartbeat := now)]),
          HeartbeatResp(r.serial, Okay))
  }

  function Finished(t: TaskRecord, r: Request): TaskRecord
    requires r.Complete?
  {
    t.(status := Done, ownerAgent := "", ownerToken := 0,
       resultBranch := r.resultBranch, resultSummary := Some(r.resultSummary))
  }

  function AddMerge(s: State, t: TaskRecord, branch: Option<string>): State {
    if NeedsMerge(t, branch) then AddTask(s, MergeSpec(t, branch)) else s
  }

  // State after the children and the merge task are minted, before the parent is closed.
  function WithOffspring(s: State, r: Request): State
    requires r.Complete? && r.id in s.tasks
  {
    var t := s.tasks[r.id];
    AddMerge(AddChildren(s, r.newChildren, t.id, t.spec.depth + 1), t, r.resultBranch)
  }

  function HandleComplete(s: State, r: Request): (State, Response)
    requires r.Complete?
  {
    if r.id !in s.tasks then (s, CompleteResp(r.serial, NotFound, None, []))
    else if !OwnsTask(s, r.id, r.token) then (s, CompleteResp(r.serial, Fenced, None, []))
    else if s.tasks[r.id].spec.depth + 1 > DEPTH_CAP && |r.newChildren| > 0 then
      (s, CompleteResp(r.serial, DepthExceeded, None, []))
    else
      var t := s.tasks[r.id];
      var s2 := WithOffspring(s, r);
      var k := |r.newChildren|;
      (s2.(tasks := s2.tasks[r.id := Finished(t, r)]),
       CompleteResp(r.serial, Okay,
                    if NeedsMerge(t, r.resultBranch) then Some(FormatId(s.nextSeq + k)) else None,
                    MintedIds(s.nextSeq, k)))
  }

  function HandleFail(s: State, r: Request): (State, Response)
    requires r.Fail?
  {
    if r.id !in s.tasks then (s, FailResp(r.serial, NotFound))
    else if !OwnsTask(s, r.id, r.token) then (s, FailResp(r.serial, Fenced))
    else
      var t := s.tasks[r.id];
      (s.(tasks := s.tasks[r.id := t.(status := Failed, failReason := Some(r.reason),
                                      ownerAgent := "", ownerToken := 0)],
          halted := true, haltedBy := Some(t.id), haltedReason := Some(r.reason)),
       FailResp(r.serial, Okay))
  }

  predicate Listed(t: TaskRecord, r: Request)
    requires r.List?
  {
    && (r.filterStatus.Some? ==> t.status == r.filterStatus.value)
    && (r.onlyMine ==> t.ownerAgent == r.agent)
  }

  function Summary(t: TaskRecord): TaskSummary {
    TaskSummary(t.id, t.spec.taskType, t.spec.title, t.status, t.ownerAgent, t.resultBranch)
  }

  // Summaries of the listed tasks among the first k in mint order.
  function Summaries(s: State, r: Request, k: nat): seq<TaskSummary>
    requires r.List? && k <= |s.order|
  {
    if k == 0 then []
    else
      var id := s.order[k - 1];
      Summaries(s, r, k - 1)
      + (if id in s.tasks && Listed(s.tasks[id], r) then [Summary(s.tasks[id])] else [])
  }

  // The holder still has the main lock: its merge task is in progress, fresh and still its own.
  predicate LockHeld(s: State, now: int) {
    && s.mainLock.lockToken != 0
    && s.mainLock.holderMergeTask in s.tasks
    && var t := s.tasks[s.mainLock.holderMergeTask];
       t.status == InProgress && !LeaseExpired(t, now) && t.ownerAgent == s.mainLock.holderAgent
  }

  function HandleLockAcquire(s: State, r: Request, now: int): (State, Response)
    requires r.LockAcquire?
  {
    if r.mergeTask !in s.tasks then (s, LockAcquireResp(r.serial, NotFound, 0))
    else if s.tasks[r.mergeTask].status != InProgress
            || s.tasks[r.mergeTask].ownerToken != r.mergeToken then
      (s, LockAcquireResp(r.serial, Fenced, 0))
    else if LockHeld(s, now) then (s, LockAcquireResp(r.serial, Busy, 0))
    else (s.(mainLock := MainLock(r.agent, r.mergeTask, s.nextToken), nextToken := s.nextToken + 1),
          LockAcquireResp(r.serial, Okay, s.nextToken))
  }

  function HandleLockRelease(s: State, r: Request): (State, Response)
    requires r.LockRelease?
  {
    if s.mainLock.lockToken == 0 || s.mainLock.lockToken != r.lockToken then
      (s, LockReleaseResp(r.serial, Fenced))
    else (s.(mainLock := NO_LOCK), LockReleaseResp(r.serial, Okay))
  }

  function HandleResume(s: State, r: Request): (State, Response)
    requires r.Resume?
  {
    (s.(halted := false, haltedBy := None, haltedReason := None),
     ResumeResp(r.serial, Okay, s.halted))
  }

  function Process(s: State, req: Request, now: int): (State, Response) {
    match req
    case Create(_, _, _, _, _) => HandleCreate(s, req)
    case Claim(_, _, _) => HandleClaim(s, req, now)
    case Heartbeat(_, _, _, _) => HandleHeartbeat(s, req, now)
    case Complete(_, _, _, _, _, _, _) => HandleComplete(s, req)
    case Fail(_, _, _, _, _) => HandleFail(s, req)
    case List(_, _, _, _) => (s, ListResp(req.serial, Okay, Summaries(s, req, |s.order|)))
    case LockAcquire(_, _, _, _) => HandleLockAcquire(s, req, now)
    case LockRelease(_, _, _) => HandleLockRelease(s, req)
    case Resume(_, _) => HandleResume(s, req)
  }

  function Next(s: State, v: DecidedValue): State { Process(s, v.req, v.now).0 }

  // The state after deciding vs in order, from a fresh database.
  function Replay(vs: seq<DecidedValue>): State {
    if |vs| == 0 then INIT else Next(Replay(Front(vs)), Last(vs))
  }
}

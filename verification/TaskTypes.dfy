/** The task manager's vocabulary: specs, records, requests and responses (tm.hh),
    and the value one Paxos slot decides (tm-paxos.hh). */
module TaskTypes {
  import opened Common

  type TaskId = string

  datatype TaskType = Plan | Implement | Merge

  datatype TaskStatus = Pending | InProgress | Done | Failed

  // 0 means "no token"; tokens handed out are nonzero.
  type Token = nat

  datatype TaskSpec = TaskSpec(
    taskType: TaskType,
    title: string,
    prompt: string,
    requiresDeps: seq<TaskId>,
    parentId: Option<TaskId>,
    branchBase: Option<string>,
    implementBranchSha: Option<string>,
    depth: int)

  datatype TaskRecord = TaskRecord(
    id: TaskId,
    spec: TaskSpec,
    status: TaskStatus,
    ownerAgent: string,
    ownerToken: Token,
    heartbeat: int,
    resultBranch: Option<string>,
    resultSummary: Option<string>,
    failReason: Option<string>)

  datatype MainLock = MainLock(holderAgent: string, holderMergeTask: TaskId, lockToken: Token)

  datatype Errc = Okay | Fenced | NotFound | NotEligible | DepthExceeded | Busy | Invalid

  datatype Request =
    | Create(serial: nat, agent: string, spec: TaskSpec,
             creatorTask: Option<TaskId>, creatorToken: Option<Token>)
    | Claim(serial: nat, agent: string, preferType: Option<TaskType>)
    | Heartbeat(serial: nat, agent: string, id: TaskId, token: Token)
    | Complete(serial: nat, agent: string, id: TaskId, token: Token,
               resultBranch: Option<string>, resultSummary: string, newChildren: seq<TaskSpec>)
    | Fail(serial: nat, agent: string, id: TaskId, token: Token, reason: string)
    | List(serial: nat, agent: string, filterStatus: Option<TaskStatus>, onlyMine: bool)
    | LockAcquire(serial: nat, agent: string, mergeTask: TaskId, mergeToken: Token)
    | LockRelease(serial: nat, agent: string, lockToken: Token)
    | Resume(serial: nat, agent: string)

  datatype TaskSummary = TaskSummary(
    id: TaskId, taskType: TaskType, title: string, status: TaskStatus,
    ownerAgent: string, resultBranch: Option<string>)

  datatype Response =
    | CreateResp(serial: nat, err: Errc, id: TaskId)
    | ClaimResp(serial: nat, err: Errc, none: bool, id: TaskId, spec: TaskSpec, token: Token,
                halted: bool, haltedBy: Option<TaskId>, haltedReason: Option<string>)
    | HeartbeatResp(serial: nat, err: Errc)
    | CompleteResp(serial: nat, err: Errc, mergeTaskId: Option<TaskId>, childIds: seq<TaskId>)
    | FailResp(serial: nat, err: Errc)
    | ListResp(serial: nat, err: Errc, tasks: seq<TaskSummary>)
    | LockAcquireResp(serial: nat, err: Errc, lockToken: Token)
    | LockReleaseResp(serial: nat, err: Errc)
    | ResumeResp(serial: nat, err: Errc, wasHalted: bool)

  // One decided slot: the request with the wall-clock the leader stamped on it.
  datatype DecidedValue = DecidedValue(now: int, agent: string, serial: nat, req: Request)

  const DEPTH_CAP: int := 5
  const LEASE_WINDOW_SECONDS: int := 45

  const NO_LOCK: MainLock := MainLock("", "", 0)

  const DEFAULT_SPEC: TaskSpec := TaskSpec(Plan, "", "", [], None, None, None, 0)
}

/** The class of task_manager_db.hh: fields changed in place, handlers with the source's loops.
    Every handler is proved to take the step of TaskMachine. */
module TaskManagerDb {
  import opened Common
  import opened TaskTypes
  import opened TaskIds
  import opened TaskMachine

  class Db {
    var tasks: map<TaskId, TaskRecord>
    var order: seq<TaskId>
    var mainLock: MainLock
    var nextToken: Token
    var nextSeq: nat
    var halted: bool
    var haltedBy: Option<TaskId>
    var haltedReason: Option<string>

    // The abstract state.
    function Abs(): State
      reads this
    {
      State(tasks, order, mainLock, nextToken, nextSeq, halted, haltedBy, haltedReason)
    }

    // What the scans rely on: every listed id is in the map.
    predicate Indexed()
      reads this
    {
      forall id | id in order :: id in tasks
    }

    constructor ()
      ensures Abs() == INIT == State(map[], [], MainLock("", "", 0), 1, 1, false, None, None)
      ensures Indexed()
    {
      tasks, order, mainLock, nextToken, nextSeq := map[], [], NO_LOCK, 1, 1;
      halted, haltedBy, haltedReason := false, None, None;
    }

    method MintTaskId() returns (id: TaskId)
      modifies this`nextSeq
      ensures id == FormatId(old(nextSeq)) && nextSeq == old(nextSeq) + 1
    {
      id := FormatId(nextSeq);
      nextSeq := nextSeq + 1;
    }

    method MintToken() returns (token: Token)
      modifies this`nextToken
      ensures token == old(nextToken) && nextToken == old(nextToken) + 1
    {
      token := nextToken;
      nextToken := nextToken + 1;
    }

    // Insert a pending record under a fresh id; an existing key would win, as with emplace.
    method AddPending(spec: TaskSpec) returns (id: TaskId)
      requires Indexed()
      modifies this`tasks, this`order, this`nextSeq
      ensures Abs() == AddTask(old(Abs()), spec) && Indexed()
      ensures id == FormatId(old(nextSeq)) && nextSeq == old(nextSeq) + 1
    {
      id := MintTaskId();
      if id !in tasks {
        tasks := tasks[id := PendingRecord(id, spec)];
      }
      order := order + [id];
    }

    method Satisfied(t: TaskRecord) returns (ok: bool)
      ensures ok == RequiresSatisfied(tasks, t)
    {
      for k := 0 to |t.spec.requiresDeps|
        invariant forall j | 0 <= j < k ::
                    t.spec.requiresDeps[j] in tasks && tasks[t.spec.requiresDeps[j]].status == Done
      {
        var dep := t.spec.requiresDeps[k];
        if dep !in tasks || tasks[dep].status != Done {
          return false;
        }
      }
      return true;
    }

    method Create(r: Request) returns (resp: Response)
      requires r.Create? && Indexed()
      modifies this`tasks, this`order, this`nextSeq
      ensures (Abs(), resp) == HandleCreate(old(Abs()), r) && Indexed()
    {
      var depth := 0;
      if r.creatorTask.Some? {
        if r.creatorToken.None? {
          return CreateResp(r.serial, Invalid, "");
        }
        if r.creatorTask.value !in tasks {
          return CreateResp(r.serial, NotFound, "");
        }
        var parent := tasks[r.creatorTask.value];
        if parent.status != InProgress || parent.ownerToken != r.creatorToken.value {
          return CreateResp(r.serial, Fenced, "");
        }
        depth := parent.spec.depth + 1;
        if depth > DEPTH_CAP {
          return CreateResp(r.serial, DepthExceeded, "");
        }
      }
      for k := 0 to |r.spec.requiresDeps|
        invariant forall j | 0 <= j < k :: r.spec.requiresDeps[j] in tasks
      {
        if r.spec.requiresDeps[k] !in tasks {
          return CreateResp(r.serial, NotFound, "");
        }
      }
      var spec := r.spec.(depth := depth);
      if r.creatorTask.Some? {
        spec := spec.(parentId := r.creatorTask);
      }
      var id := AddPending(spec);
      return CreateResp(r.serial, Okay, id);
    }

    // The earliest position that may be claimed; the length of the order if there is none.
    method Scan(now: int, only: Option<TaskType>) returns (i: nat)
      requires Indexed()
      ensures i == FirstEligible(Abs(), now, only, 0)
    {
      i := 0;
      while i < |order|
        invariant i <= |order|
        invariant FirstEligible(Abs(), now, only, 0) == FirstEligible(Abs(), now, only, i)
      {
        var t := tasks[order[i]];
        if only.None? || t.spec.taskType == only.value {
          var ready := Satisfied(t);
          if ready && (t.status == Pending || (t.status == InProgress && LeaseExpired(t, now))) {
            return;
          }
        }
        i := i + 1;
      }
    }

    method Grant(id: TaskId, r: Request, now: int) returns (resp: Response)
      requires r.Claim? && id in tasks && Indexed()
      modifies this`tasks, this`nextToken
      ensures Abs() == GrantTask(old(Abs()), id, r.agent, now) && Indexed()
      ensures resp == ClaimResp(r.serial, Okay, false, old(tasks[id].id), old(tasks[id].spec),
                                old(nextToken), false, None, None)
    {
      var t := tasks[id];
      if t.status == InProgress {
        t := t.(status := Pending, ownerAgent := "", ownerToken := 0);
      }
      var token := MintToken();
      t := t.(status := InProgress, ownerAgent := r.agent, ownerToken := token, heartbeat := now);
      tasks := tasks[id := t];
      return ClaimResp(r.serial, Okay, false, t.id, t.spec, t.ownerToken, false, None, None);
    }

    method Claim(r: Request, now: int) returns (resp: Response)
      requires r.Claim? && Indexed()
      modifies this`tasks, this`nextToken
      ensures (Abs(), resp) == HandleClaim(old(Abs()), r, now) && Indexed()
    {
      if halted {
        return ClaimResp(r.serial, Okay, true, "", DEFAULT_SPEC, 0, true, haltedBy, haltedReason);
      }
      var i: nat;
      if r.preferType.Some? {
        i := Scan(now, r.preferType);
        if i == |order| {
          i := Scan(now, None);
        }
      } else {
        i := Scan(now, None);
      }
      if i < |order| {
        resp := Grant(order[i], r, now);
      } else {
        resp := ClaimResp(r.serial, Okay, true, "", DEFAULT_SPEC, 0, false, None, None);
      }
    }

    method Heartbeat(r: Request, now: int) returns (resp: Response)
      requires r.Heartbeat? && Indexed()
      modifies this`tasks
      ensures (Abs(), resp) == HandleHeartbeat(old(Abs()), r, now) && Indexed()
    {
      if r.id !in tasks {
        return HeartbeatResp(r.serial, NotFound);
      }
      var t := tasks[r.id];
      if t.ownerToken == 0 || t.ownerToken != r.token {
        return HeartbeatResp(r.serial, Fenced);
      }
      tasks := tasks[r.id := t.(heartbeat := now)];
      return HeartbeatResp(r.serial, Okay);
    }

    // Append the children of a completed task, in order.
    method AppendChildren(specs: seq<TaskSpec>, parent: TaskId, depth: int) returns (ids: seq<TaskId>)
      requires Indexed()
      modifies this`tasks, this`order, this`nextSeq
      ensures Abs() == AddChildren(old(Abs()), specs, parent, depth) && Indexed()
      ensures ids == MintedIds(old(nextSeq), |specs|)
      ensures nextSeq == old(nextSeq) + |specs|
    {
      ids := [];
      for k := 0 to |specs|
        invariant Abs() == AddChildren(old(Abs()), specs[..k], parent, depth) && Indexed()
        invariant ids == MintedIds(old(nextSeq), k) && nextSeq == old(nextSeq) + k
      {
        assert Front(specs[..k + 1]) == specs[..k];
        var id := AddPending(ChildSpec(specs[k], parent, depth));
        ids := ids + [id];
      }
      assert specs[..|specs|] == specs;
    }

    // Append a merge task for an implement task that comes with a branch.
    method SynthesizeMerge(t: TaskRecord, branch: Option<string>) returns (id: Option<TaskId>)
      requires Indexed()
      modifies this`tasks, this`order, this`nextSeq
      ensures Abs() == AddMerge(old(Abs()), t, branch) && Indexed()
      ensures id == if NeedsMerge(t, branch) then Some(FormatId(old(nextSeq))) else None
    {
      id := None;
      if t.spec.taskType == Implement && branch.Some? && branch.value != "" {
        var minted := AddPending(MergeSpec(t, branch));
        id := Some(minted);
      }
    }

    method Complete(r: Request) returns (resp: Response)
      requires r.Complete? && Indexed()
      modifies this`tasks, this`order, this`nextSeq
      ensures (Abs(), resp) == HandleComplete(old(Abs()), r) && Indexed()
    {
      if r.id !in tasks {
        return CompleteResp(r.serial, NotFound, None, []);
      }
      var t := tasks[r.id];
      if t.ownerToken == 0 || t.ownerToken != r.token {
        return CompleteResp(r.serial, Fenced, None, []);
      }
      var childDepth := t.spec.depth + 1;
      if childDepth > DEPTH_CAP && |r.newChildren| > 0 {
        return CompleteResp(r.serial, DepthExceeded, None, []);
      }
      resp := FinishTask(r, t, childDepth);
    }

    // Append the children and the merge, then close the parent.
    method FinishTask(r: Request, t: TaskRecord, childDepth: int) returns (resp: Response)
      requires r.Complete? && Indexed() && r.id in tasks && tasks[r.id] == t
      requires childDepth == t.spec.depth + 1
      modifies this`tasks, this`order, this`nextSeq
      ensures var s2 := WithOffspring(old(Abs()), r);
              Abs() == s2.(tasks := s2.tasks[r.id := Finished(t, r)])
      ensures resp == CompleteResp(r.serial, Okay,
                                   if NeedsMerge(t, r.resultBranch) then
                                     Some(FormatId(old(nextSeq) + |r.newChildren|))
                                   else None,
                                   MintedIds(old(nextSeq), |r.newChildren|))
      ensures Indexed()
    {
      var childIds := AppendChildren(r.newChildren, t.id, childDepth);
      var mergeId := SynthesizeMerge(t, r.resultBranch);
      tasks := tasks[r.id := Finished(t, r)];
      resp := CompleteResp(r.serial, Okay, mergeId, childIds);
    }

    method Fail(r: Request) returns (resp: Response)
      requires r.Fail? && Indexed()
      modifies this`tasks, this`halted, this`haltedBy, this`haltedReason
      ensures (Abs(), resp) == HandleFail(old(Abs()), r) && Indexed()
    {
      if r.id !in tasks {
        return FailResp(r.serial, NotFound);
      }
      var t := tasks[r.id];
      if t.ownerToken == 0 || t.ownerToken != r.token {
        return FailResp(r.serial, Fenced);
      }
      t := t.(status := Failed, failReason := Some(r.reason), ownerAgent := "", ownerToken := 0);
      tasks := tasks[r.id := t];
      halted := true;
      haltedBy := Some(t.id);
      haltedReason := Some(r.reason);
      return FailResp(r.serial, Okay);
    }

    method ListTasks(r: Request) returns (resp: Response)
      requires r.List? && Indexed()
      ensures resp == ListResp(r.serial, Okay, Summaries(Abs(), r, |order|))
    {
      var out: seq<TaskSummary> := [];
      for k := 0 to |order|
        invariant out == Summaries(Abs(), r, k)
      {
        var t := tasks[order[k]];
        if Listed(t, r) {
          out := out + [Summary(t)];
        }
      }
      return ListResp(r.serial, Okay, out);
    }

    method AcquireLock(r: Request, now: int) returns (resp: Response)
      requires r.LockAcquire?
      modifies this`mainLock, this`nextToken
      ensures (Abs(), resp) == HandleLockAcquire(old(Abs()), r, now)
    {
      if r.mergeTask !in tasks {
        return LockAcquireResp(r.serial, NotFound, 0);
      }
      var mt := tasks[r.mergeTask];
      if mt.status != InProgress || mt.ownerToken != r.mergeToken {
        return LockAcquireResp(r.serial, Fenced, 0);
      }
      if mainLock.lockToken != 0 {
        if mainLock.holderMergeTask in tasks {
          var held := tasks[mainLock.holderMergeTask];
          if held.status == InProgress && !LeaseExpired(held, now)
             && held.ownerAgent == mainLock.holderAgent {
            return LockAcquireResp(r.serial, Busy, 0);
          }
        }
        mainLock := NO_LOCK;
      }
      var token := MintToken();
      mainLock := MainLock(r.agent, r.mergeTask, token);
      return LockAcquireResp(r.serial, Okay, token);
    }

    method ReleaseLock(r: Request) returns (resp: Response)
      requires r.LockRelease?
      modifies this`mainLock
      ensures (Abs(), resp) == HandleLockRelease(old(Abs()), r)
    {
      if mainLock.lockToken == 0 || mainLock.lockToken != r.lockToken {
        return LockReleaseResp(r.serial, Fenced);
      }
      mainLock := NO_LOCK;
      return LockReleaseResp(r.serial, Okay);
    }

    method ResumeSwarm(r: Request) returns (resp: Response)
      requires r.Resume?
      modifies this`halted, this`haltedBy, this`haltedReason
      ensures (Abs(), resp) == HandleResume(old(Abs()), r)
    {
      resp := ResumeResp(r.serial, Okay, halted);
      halted, haltedBy, haltedReason := false, None, None;
    }

    // The single entry point for changes.
    method ProcessReq(req: Request, now: int) returns (resp: Response)
      requires Indexed()
      modifies this
      ensures (Abs(), resp) == Process(old(Abs()), req, now) && Indexed()
    {
      match req
      case Create(_, _, _, _, _) => resp := Create(req);
      case Claim(_, _, _) => resp := Claim(req, now);
      case Heartbeat(_, _, _, _) => resp := Heartbeat(req, now);
      case Complete(_, _, _, _, _, _, _) => resp := Complete(req);
      case Fail(_, _, _, _, _) => resp := Fail(req);
      case List(_, _, _, _) => resp := ListTasks(req);
      case LockAcquire(_, _, _, _) => resp := AcquireLock(req, now);
      case LockRelease(_, _, _) => resp := ReleaseLock(req);
      case Resume(_, _) => resp := ResumeSwarm(req);
    }
  }
}

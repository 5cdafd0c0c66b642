/** When each request is granted and with which answer it is refused, in every valid state, with the
    lease of 45 seconds and the depth of 5 spelled out; and what a granted one changes. */
module TaskAnswers {
  import opened Common
  import opened TaskTypes
  import opened TaskMachine
  import opened TaskInvariants
  import opened TaskRuns
  import opened TaskOutcomes

  // Nothing changed but the task id.
  ghost predicate OnlyTask(s: State, s': State, id: TaskId) {
    && s'.tasks.Keys == s.tasks.Keys
    && (forall x | x in s.tasks && x != id :: s'.tasks[x] == s.tasks[x])
    && s'.order == s.order
    && s'.nextSeq == s.nextSeq
    && s'.nextToken == s.nextToken
    && s'.mainLock == s.mainLock
  }

  predicate SameHalt(s: State, s': State) {
    s'.halted == s.halted && s'.haltedBy == s.haltedBy && s'.haltedReason == s.haltedReason
  }

  // Every answer is to the request asked: of its kind and with its serial number.
  lemma AnswersTheRequest(s: State, r: Request, now: int)
    ensures var resp := Process(s, r, now).1;
            && resp.serial == r.serial
            && (resp.CreateResp? <==> r.Create?) && (resp.ClaimResp? <==> r.Claim?)
            && (resp.HeartbeatResp? <==> r.Heartbeat?) && (resp.CompleteResp? <==> r.Complete?)
            && (resp.FailResp? <==> r.Fail?) && (resp.ListResp? <==> r.List?)
            && (resp.LockAcquireResp? <==> r.LockAcquire?)
            && (resp.LockReleaseResp? <==> r.LockRelease?) && (resp.ResumeResp? <==> r.Resume?)
  {
  }

  // ---- create ----

  // A root task, or one under a creator that owns its task above the deepest level.
  predicate MayCreate(s: State, r: Request)
    requires r.Create?
  {
    r.creatorTask.Some? ==>
      && r.creatorToken.Some?
      && Owns(s, r.creatorTask.value, r.creatorToken.value)
      && s.tasks[r.creatorTask.value].spec.depth <= 4
  }

  predicate KnowsDeps(s: State, r: Request)
    requires r.Create?
  {
    forall d | d in r.spec.requiresDeps :: d in s.tasks
  }

  lemma CreateAnswers(s: State, r: Request, now: int)
    requires Valid(s) && r.Create?
    ensures var err := Process(s, r, now).1.err;
            var nested := r.creatorTask.Some? && r.creatorToken.Some?;
            && (err == Okay <==> MayCreate(s, r) && KnowsDeps(s, r))
            && (err == Invalid <==> r.creatorTask.Some? && r.creatorToken.None?)
            && (err == Fenced <==>
                nested && r.creatorTask.value in s.tasks
                && !Owns(s, r.creatorTask.value, r.creatorToken.value))
            && (err == DepthExceeded <==>
                nested && Owns(s, r.creatorTask.value, r.creatorToken.value)
                && s.tasks[r.creatorTask.value].spec.depth == 5)
            && (err == NotFound <==>
                (nested && r.creatorTask.value !in s.tasks)
                || (MayCreate(s, r) && !KnowsDeps(s, r)))
  {
    if r.creatorTask.Some? && r.creatorTask.value in s.tasks {
      assert RecordOk(r.creatorTask.value, s.tasks[r.creatorTask.value], s.nextToken);
    }
  }

  // ---- claim ----

  // A claim finds nothing exactly when the swarm is halted or every task whose dependencies are all
  // done is done, failed, or in progress with a heartbeat at most 45 seconds old.
  lemma ClaimAnswers(s: State, r: Request, now: int)
    requires Valid(s) && r.Claim?
    ensures var resp := Process(s, r, now).1;
            && resp.err == Okay
            && (resp.none <==> s.halted || forall id | Ready(s, id) :: Busied(s.tasks[id], now))
            && (resp.halted <==> s.halted)
            && (s.halted ==> resp.haltedBy == s.haltedBy && resp.haltedReason == s.haltedReason)
  {
    ClaimIsFair(s, r, now);
    if SomePick(s, now, None) {
      var k :| 0 <= k < |s.order| && Offers(s, now, None, k);
      assert Ready(s, s.order[k]) && !Busied(s.tasks[s.order[k]], now);
    } else {
      forall id | Ready(s, id) ensures Busied(s.tasks[id], now) {
        assert id in s.order;
        var k :| 0 <= k < |s.order| && s.order[k] == id;
        assert !Offers(s, now, None, k);
      }
    }
  }

  predicate Busied(t: TaskRecord, now: int) {
    t.status == Done || t.status == Failed || (t.status == InProgress && now - t.heartbeat <= 45)
  }

  // ---- heartbeat, complete, fail ----

  // The answers of the three requests that act on a task by its token.
  predicate TokenAnswers(s: State, id: TaskId, token: Token, err: Errc) {
    && (err == NotFound <==> id !in s.tasks)
    && (err == Fenced <==> id in s.tasks && !Owns(s, id, token))
  }

  lemma HeartbeatAnswers(s: State, r: Request, now: int)
    requires Valid(s) && r.Heartbeat?
    ensures var (s', resp) := Process(s, r, now);
            && TokenAnswers(s, r.id, r.token, resp.err)
            && (resp.err == Okay <==> Owns(s, r.id, r.token))
            && (resp.err == Okay ==>
                  && OnlyTask(s, s', r.id) && SameHalt(s, s')
                  && Owns(s', r.id, r.token)
                  && s'.tasks[r.id].heartbeat == now
                  && s'.tasks[r.id].ownerAgent == s.tasks[r.id].ownerAgent
                  && s'.tasks[r.id].spec == s.tasks[r.id].spec)
  {
    if r.id in s.tasks {
      assert RecordOk(r.id, s.tasks[r.id], s.nextToken);
    }
  }

  // A complete is refused for depth exactly when its owner adds children to a task at depth 5.
  lemma CompleteAnswers(s: State, r: Request, now: int)
    requires Valid(s) && r.Complete?
    ensures var err := Process(s, r, now).1.err;
            && TokenAnswers(s, r.id, r.token, err)
            && (err == Okay <==>
                Owns(s, r.id, r.token) && (r.newChildren == [] || s.tasks[r.id].spec.depth <= 4))
            && (err == DepthExceeded <==>
                Owns(s, r.id, r.token) && r.newChildren != [] && s.tasks[r.id].spec.depth == 5)
  {
    if r.id in s.tasks {
      assert RecordOk(r.id, s.tasks[r.id], s.nextToken);
    }
  }

  // A fail of the owner marks its task and halts the swarm in its name.
  lemma FailAnswers(s: State, r: Request, now: int)
    requires Valid(s) && r.Fail?
    ensures var (s', resp) := Process(s, r, now);
            && TokenAnswers(s, r.id, r.token, resp.err)
            && (resp.err == Okay <==> Owns(s, r.id, r.token))
            && (resp.err == Okay ==>
                  && OnlyTask(s, s', r.id)
                  && s'.tasks[r.id].status == Failed
                  && s'.tasks[r.id].failReason == Some(r.reason)
                  && s'.tasks[r.id].ownerAgent == "" && s'.tasks[r.id].ownerToken == 0
                  && s'.tasks[r.id].spec == s.tasks[r.id].spec
                  && s'.halted && s'.haltedBy == Some(r.id) && s'.haltedReason == Some(r.reason))
  {
    if r.id in s.tasks {
      assert RecordOk(r.id, s.tasks[r.id], s.nextToken);
    }
  }

  // ---- the main lock and the halt ----

  // The lock is free, or its holder has lost the merge task that backs it.
  predicate LockOpen(s: State, now: int) { s.mainLock.lockToken == 0 || LockStale(s, now) }

  lemma AcquireAnswers(s: State, r: Request, now: int)
    requires Valid(s) && r.LockAcquire?
    ensures var (s', resp) := Process(s, r, now);
            && TokenAnswers(s, r.mergeTask, r.mergeToken, resp.err)
            && (resp.err == Okay <==> Owns(s, r.mergeTask, r.mergeToken) && LockOpen(s, now))
            && (resp.err == Busy <==> Owns(s, r.mergeTask, r.mergeToken) && !LockOpen(s, now))
            && (resp.err == Okay ==>
                  && s'.mainLock == MainLock(r.agent, r.mergeTask, resp.lockToken)
                  && resp.lockToken != 0
                  && !HeldByTask(s, resp.lockToken) && resp.lockToken != s.mainLock.lockToken
                  && s'.tasks == s.tasks && s'.order == s.order && SameHalt(s, s'))
  {
    if r.mergeTask in s.tasks {
      assert RecordOk(r.mergeTask, s.tasks[r.mergeTask], s.nextToken);
    }
  }

  lemma ReleaseAnswers(s: State, r: Request, now: int)
    requires r.LockRelease?
    ensures var (s', resp) := Process(s, r, now);
            && (resp.err == Okay <==> r.lockToken != 0 && r.lockToken == s.mainLock.lockToken)
            && (resp.err == Okay || resp.err == Fenced)
            && (resp.err == Okay ==>
                  && s'.mainLock == MainLock("", "", 0)
                  && s'.tasks == s.tasks && s'.order == s.order && SameHalt(s, s'))
  {
  }

  // Resuming always works, tells whether there was a halt, and ends it.
  lemma ResumeAnswers(s: State, r: Request, now: int)
    requires r.Resume?
    ensures var (s', resp) := Process(s, r, now);
            && resp.err == Okay && (resp.wasHalted <==> s.halted)
            && !s'.halted && s'.haltedBy == None && s'.haltedReason == None
            && s'.tasks == s.tasks && s'.order == s.order && s'.mainLock == s.mainLock
  {
  }

  // A list always works, changes nothing, and shows exactly the tasks that pass its filters, each once,
  // in the order they were minted: those at these increasing positions.
  lemma ListAnswers(s: State, r: Request, now: int) returns (at: seq<nat>)
    requires Valid(s) && r.List?
    ensures Process(s, r, now).0 == s
    ensures var resp := Process(s, r, now).1;
            && resp.err == Okay
            && |at| == |resp.tasks|
            && (forall a, b | 0 <= a < b < |at| :: at[a] < at[b])
            && (forall a | 0 <= a < |at| ::
                  at[a] < |s.order| && ShownAs(s, r, at[a], resp.tasks[a]))
            && (forall x | 0 <= x < |s.order| && Shown(s, r, x) :: x in at)
  {
    at := ListsExactly(s, r, |s.order|);
  }
}

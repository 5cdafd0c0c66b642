/** What every request keeps true of the task table, its tokens and the order tasks were started in. */
module TaskInvariants {
  import opened Common
  import opened TaskTypes
  import opened TaskIds
  import opened TaskMachine

  // ---- the invariant ----

  // The k-th task listed is the k-th ever minted.
  predicate MintedAt(order: seq<TaskId>, k: nat)
    requires k < |order|
  {
    order[k] == FormatId(k + 1)
  }

  // The order lists the map's keys, without repeats, in the order their ids were minted.
  ghost predicate TableOk(s: State) {
    && s.nextSeq == |s.order| + 1
    && (forall k {:trigger MintedAt(s.order, k)} | 0 <= k < |s.order| :: MintedAt(s.order, k))
    && (forall id :: id in s.tasks <==> id in s.order)
  }

  predicate RecordOk(id: TaskId, t: TaskRecord, nextToken: Token) {
    && t.id == id
    && 0 <= t.spec.depth <= 5
    && (t.status == InProgress <==> t.ownerToken != 0)
    && (t.status != InProgress ==> t.ownerAgent == "")
    && t.ownerToken < nextToken
  }

  predicate RecordsOk(s: State) {
    forall id | id in s.tasks :: RecordOk(id, s.tasks[id], s.nextToken)
  }

  // No number is held twice, by tasks or by the main lock.
  predicate TokensOk(s: State) {
    && 1 <= s.nextToken
    && s.mainLock.lockToken < s.nextToken
    && (forall a, b | a in s.tasks && b in s.tasks && a != b ::
          s.tasks[a].ownerToken != 0 ==> s.tasks[a].ownerToken != s.tasks[b].ownerToken)
    && (forall a | a in s.tasks ::
          s.mainLock.lockToken != 0 ==> s.tasks[a].ownerToken != s.mainLock.lockToken)
  }

  predicate HaltOk(s: State) {
    if s.halted then
      && s.haltedBy.Some?
      && s.haltedBy.value in s.tasks
      && s.tasks[s.haltedBy.value].status == Failed
      && s.haltedReason.Some?
      && s.tasks[s.haltedBy.value].failReason == s.haltedReason
    else s.haltedBy.None? && s.haltedReason.None?
  }

  ghost predicate Valid(s: State) {
    TableOk(s) && RecordsOk(s) && TokensOk(s) && HaltOk(s)
  }

  // ---- adding tasks ----

  lemma FreshId(s: State)
    requires TableOk(s)
    ensures FormatId(s.nextSeq) !in s.tasks
  {
    if FormatId(s.nextSeq) in s.order {
      var k :| 0 <= k < |s.order| && s.order[k] == FormatId(s.nextSeq);
      assert MintedAt(s.order, k);
      FormatIdInjective(k + 1, s.nextSeq);
    }
  }

  // s' holds everything s holds, unchanged, and only pending tasks besides.
  ghost predicate OnlyAdds(s: State, s': State) {
    && s'.mainLock == s.mainLock && s'.nextToken == s.nextToken
    && s'.halted == s.halted && s'.haltedBy == s.haltedBy && s'.haltedReason == s.haltedReason
    && (forall id | id in s.tasks :: id in s'.tasks && s'.tasks[id] == s.tasks[id])
    && (forall id | id in s'.tasks && id !in s.tasks ::
          s'.tasks[id].status == Pending && s'.tasks[id].ownerToken == 0)
  }

  lemma AddTaskOk(s: State, spec: TaskSpec)
    requires Valid(s) && 0 <= spec.depth <= DEPTH_CAP
    ensures Valid(AddTask(s, spec)) && OnlyAdds(s, AddTask(s, spec))
    ensures |AddTask(s, spec).order| == |s.order| + 1
  {
    FreshId(s);
    var id := FormatId(s.nextSeq);
    var s' := AddTask(s, spec);
    forall x ensures x in s'.tasks <==> x in s'.order {
      assert x in s'.order <==> x in s.order || x == id;
    }
    forall k | 0 <= k < |s'.order| ensures MintedAt(s'.order, k) {
      assert k < |s.order| ==> MintedAt(s.order, k);
    }
  }

  lemma {:induction false} AddChildrenOk(s: State, specs: seq<TaskSpec>, parent: TaskId, depth: int)
    requires Valid(s) && (0 <= depth <= DEPTH_CAP || |specs| == 0)
    ensures Valid(AddChildren(s, specs, parent, depth))
    ensures OnlyAdds(s, AddChildren(s, specs, parent, depth))
    ensures |AddChildren(s, specs, parent, depth).order| == |s.order| + |specs|
  {
    if |specs| == 0 {
    } else {
      AddChildrenOk(s, Front(specs), parent, depth);
      var s1 := AddChildren(s, Front(specs), parent, depth);
      AddTaskOk(s1, ChildSpec(Last(specs), parent, depth));
    }
  }

  lemma OnlyAddsTrans(a: State, b: State, c: State)
    requires OnlyAdds(a, b) && OnlyAdds(b, c)
    ensures OnlyAdds(a, c)
  {
  }

  lemma AddMergeOk(s: State, t: TaskRecord, branch: Option<string>)
    requires Valid(s) && 0 <= t.spec.depth <= DEPTH_CAP
    ensures Valid(AddMerge(s, t, branch)) && OnlyAdds(s, AddMerge(s, t, branch))
    ensures |AddMerge(s, t, branch).order| == |s.order| + (if NeedsMerge(t, branch) then 1 else 0)
  {
    if NeedsMerge(t, branch) {
      AddTaskOk(s, MergeSpec(t, branch));
    }
  }

  lemma WithOffspringOk(s: State, r: Request)
    requires Valid(s) && r.Complete? && r.id in s.tasks
    requires s.tasks[r.id].spec.depth + 1 <= DEPTH_CAP || |r.newChildren| == 0
    ensures var s2 := WithOffspring(s, r);
            && Valid(s2)
            && OnlyAdds(s, s2)
            && |s2.order| == |s.order| + |r.newChildren|
                             + (if NeedsMerge(s.tasks[r.id], r.resultBranch) then 1 else 0)
  {
    var t := s.tasks[r.id];
    assert RecordOk(r.id, t, s.nextToken);
    OffspringOk(s, t, r.newChildren, t.spec.depth + 1, r.resultBranch);
  }

  lemma OffspringOk(s: State, t: TaskRecord, specs: seq<TaskSpec>, depth: int,
                    branch: Option<string>)
    requires Valid(s) && 0 <= t.spec.depth <= DEPTH_CAP
    requires 0 <= depth <= DEPTH_CAP || |specs| == 0
    ensures var s2 := AddMerge(AddChildren(s, specs, t.id, depth), t, branch);
            && Valid(s2)
            && OnlyAdds(s, s2)
            && |s2.order| == |s.order| + |specs| + (if NeedsMerge(t, branch) then 1 else 0)
  {
    AddChildrenOk(s, specs, t.id, depth);
    var s1 := AddChildren(s, specs, t.id, depth);
    AddMergeOk(s1, t, branch);
    OnlyAddsTrans(s, s1, AddMerge(s1, t, branch));
  }

  // ---- changing one record ----

  lemma TableSame(s: State, s': State)
    requires TableOk(s) && s'.order == s.order && s'.nextSeq == s.nextSeq
    requires s'.tasks.Keys == s.tasks.Keys
    ensures TableOk(s')
  {
    forall k | 0 <= k < |s'.order| ensures MintedAt(s'.order, k) {
      assert MintedAt(s.order, k);
    }
    forall x ensures x in s'.tasks <==> x in s'.order {
      assert x in s'.tasks <==> x in s'.tasks.Keys;
      assert x in s.tasks <==> x in s.tasks.Keys;
    }
  }

  lemma RecordsLater(s: State, s': State)
    requires RecordsOk(s) && s'.tasks == s.tasks && s.nextToken <= s'.nextToken
    ensures RecordsOk(s')
  {
    forall x | x in s'.tasks ensures RecordOk(x, s'.tasks[x], s'.nextToken) {
      assert RecordOk(x, s.tasks[x], s.nextToken);
    }
  }

  lemma ReplaceRecords(s: State, id: TaskId, t: TaskRecord, next: Token)
    requires RecordsOk(s) && id in s.tasks && s.nextToken <= next && RecordOk(id, t, next)
    ensures RecordsOk(s.(tasks := s.tasks[id := t], nextToken := next))
  {
    var s' := s.(tasks := s.tasks[id := t], nextToken := next);
    forall x | x in s'.tasks ensures RecordOk(x, s'.tasks[x], next) {
      assert x != id ==> RecordOk(x, s.tasks[x], s.nextToken);
    }
  }

  // Replacing a record keeps the table when its token is its own or newly minted.
  lemma ReplaceOk(s: State, id: TaskId, t: TaskRecord, next: Token)
    requires Valid(s) && id in s.tasks && s.nextToken <= next
    requires RecordOk(id, t, next)
    requires t.ownerToken == s.tasks[id].ownerToken || t.ownerToken == 0
             || t.ownerToken == s.nextToken < next
    requires s.tasks[id].status == Failed ==> t == s.tasks[id]
    ensures Valid(s.(tasks := s.tasks[id := t], nextToken := next))
  {
    var s' := s.(tasks := s.tasks[id := t], nextToken := next);
    TableSame(s, s');
    ReplaceRecords(s, id, t, next);
    ReplaceTokens(s, id, t, next);
  }

  lemma ReplaceTokens(s: State, id: TaskId, t: TaskRecord, next: Token)
    requires RecordsOk(s) && TokensOk(s) && id in s.tasks && s.nextToken <= next
    requires t.ownerToken == s.tasks[id].ownerToken || t.ownerToken == 0
             || t.ownerToken == s.nextToken < next
    ensures TokensOk(s.(tasks := s.tasks[id := t], nextToken := next))
  {
    forall x | x in s.tasks ensures s.tasks[x].ownerToken < s.nextToken {
      assert RecordOk(x, s.tasks[x], s.nextToken);
    }
  }

  // ---- every request ----

  lemma CreateOk(s: State, r: Request)
    requires Valid(s) && r.Create?
    ensures Valid(HandleCreate(s, r).0)
  {
    if HandleCreate(s, r).1.err == Okay {
      if r.creatorTask.Some? {
        assert RecordOk(r.creatorTask.value, s.tasks[r.creatorTask.value], s.nextToken);
      }
      var depth := if r.creatorTask.Some? then s.tasks[r.creatorTask.value].spec.depth + 1 else 0;
      var parent := if r.creatorTask.Some? then r.creatorTask else r.spec.parentId;
      AddTaskOk(s, r.spec.(depth := depth, parentId := parent));
    }
  }

  lemma ClaimOk(s: State, r: Request, now: int)
    requires Valid(s) && r.Claim?
    ensures Valid(HandleClaim(s, r, now).0)
  {
    if !s.halted {
      var i := PickIndex(s, now, r.preferType);
      if i < |s.order| && s.order[i] in s.tasks {
        var id := s.order[i];
        PickedIsEligible(s, now, r.preferType);
        assert RecordOk(id, s.tasks[id], s.nextToken);
        ReplaceOk(s, id, GrantTask(s, id, r.agent, now).tasks[id], s.nextToken + 1);
      }
    }
  }

  // ---- which tasks may be claimed ----

  // All its dependencies are done.
  predicate Ready(s: State, id: TaskId) {
    id in s.tasks
    && forall d | d in s.tasks[id].spec.requiresDeps :: d in s.tasks && s.tasks[d].status == Done
  }

  // Nobody works on it, or the one who does has been silent for more than 45 seconds.
  predicate Unattended(t: TaskRecord, now: int) {
    t.status == Pending || (t.status == InProgress && now - t.heartbeat > 45)
  }

  predicate Claimable(s: State, id: TaskId, now: int) {
    Ready(s, id) && Unattended(s.tasks[id], now)
  }

  // The k-th task minted may be claimed, and is of the given type if one is given.
  predicate Offers(s: State, now: int, only: Option<TaskType>, k: nat)
    requires k < |s.order|
  {
    Claimable(s, s.order[k], now)
    && (only.Some? ==> s.tasks[s.order[k]].spec.taskType == only.value)
  }

  lemma PicksOffered(s: State, now: int, only: Option<TaskType>, k: nat)
    requires k < |s.order|
    ensures Picks(s, now, only, k) <==> Offers(s, now, only, k)
    ensures Eligible(s, s.order[k], now) <==> Claimable(s, s.order[k], now)
  {
  }

  lemma {:induction false} FirstEligibleIs(s: State, now: int, only: Option<TaskType>, k: nat)
    requires k <= |s.order|
    ensures var i := FirstEligible(s, now, only, k);
            && (i < |s.order| ==> Offers(s, now, only, i))
            && (forall j | k <= j < i :: !Offers(s, now, only, j))
    decreases |s.order| - k
  {
    if k == |s.order| {
    } else {
      PicksOffered(s, now, only, k);
      if !Picks(s, now, only, k) {
        FirstEligibleIs(s, now, only, k + 1);
      }
    }
  }

  lemma PickedIsEligible(s: State, now: int, prefer: Option<TaskType>)
    ensures var i := PickIndex(s, now, prefer); i < |s.order| ==> Claimable(s, s.order[i], now)
  {
    FirstEligibleIs(s, now, prefer, 0);
    FirstEligibleIs(s, now, None, 0);
  }

  lemma HeartbeatOk(s: State, r: Request, now: int)
    requires Valid(s) && r.Heartbeat?
    ensures Valid(HandleHeartbeat(s, r, now).0)
  {
    if OwnsTask(s, r.id, r.token) {
      assert RecordOk(r.id, s.tasks[r.id], s.nextToken);
      ReplaceOk(s, r.id, s.tasks[r.id].(heartbeat := now), s.nextToken);
    }
  }

  lemma CompleteOk(s: State, r: Request)
    requires Valid(s) && r.Complete?
    ensures Valid(HandleComplete(s, r).0)
  {
    if HandleComplete(s, r).1.err == Okay {
      assert RecordOk(r.id, s.tasks[r.id], s.nextToken);
      WithOffspringOk(s, r);
      var s2 := WithOffspring(s, r);
      ReplaceOk(s2, r.id, Finished(s2.tasks[r.id], r), s2.nextToken);
    }
  }

  lemma FailOk(s: State, r: Request)
    requires Valid(s) && r.Fail?
    ensures Valid(HandleFail(s, r).0)
  {
    if OwnsTask(s, r.id, r.token) {
      var t := s.tasks[r.id];
      assert RecordOk(r.id, t, s.nextToken);
      ReplaceOk(s, r.id, t.(status := Failed, failReason := Some(r.reason),
                            ownerAgent := "", ownerToken := 0), s.nextToken);
    }
  }

  lemma LockOk(s: State, r: Request, now: int)
    requires Valid(s) && (r.LockAcquire? || r.LockRelease?)
    ensures Valid(Process(s, r, now).0)
  {
    var s' := Process(s, r, now).0;
    TableSame(s, s');
    RecordsLater(s, s');
    LockTokens(s, s');
  }

  lemma LockTokens(s: State, s': State)
    requires RecordsOk(s) && TokensOk(s) && s'.tasks == s.tasks
    requires if s'.mainLock.lockToken == s.nextToken then s'.nextToken == s.nextToken + 1
             else s'.mainLock.lockToken in {0, s.mainLock.lockToken} && s'.nextToken == s.nextToken
    ensures TokensOk(s')
  {
    forall x | x in s.tasks ensures s.tasks[x].ownerToken < s.nextToken {
      assert RecordOk(x, s.tasks[x], s.nextToken);
    }
  }

  // Every request, whatever it carries, keeps the table valid.
  lemma ProcessKeepsValid(s: State, req: Request, now: int)
    requires Valid(s)
    ensures Valid(Process(s, req, now).0)
  {
    match req
    case Create(_, _, _, _, _) => CreateOk(s, req);
    case Claim(_, _, _) => ClaimOk(s, req, now);
    case Heartbeat(_, _, _, _) => HeartbeatOk(s, req, now);
    case Complete(_, _, _, _, _, _, _) => CompleteOk(s, req);
    case Fail(_, _, _, _, _) => FailOk(s, req);
    case List(_, _, _, _) =>
    case LockAcquire(_, _, _, _) => LockOk(s, req, now);
    case LockRelease(_, _, _) => LockOk(s, req, now);
    case Resume(_, _) => assert TableOk(s) && RecordsOk(s) && TokensOk(s);
  }

  // ---- what a request can do to the tasks already there ----

  // How one record may move: kept, granted, heartbeat, completed or failed.
  predicate Moved(t: TaskRecord, t': TaskRecord) {
    && t'.id == t.id
    && t'.spec == t.spec
    && (t.status == Done || t.status == Failed ==> t' == t)
    && (t.status == InProgress ==> t'.status != Pending)
  }

  ghost predicate TasksMoved(s: State, s': State) {
    forall id | id in s.tasks :: id in s'.tasks && Moved(s.tasks[id], s'.tasks[id])
  }

  // Done and failed are final, down to the whole record; no task is ever dropped or respecified.
  lemma ProcessMovesTasks(s: State, req: Request, now: int)
    requires Valid(s)
    ensures TasksMoved(s, Process(s, req, now).0)
  {
    match req
    case Create(_, _, _, _, _) => CreateAdds(s, req);
    case Claim(_, _, _) => ClaimMoves(s, req, now);
    case Heartbeat(_, _, id, _) => HeartbeatMoves(s, req, now);
    case Complete(_, _, id, _, _, _, _) => CompleteMoves(s, req);
    case Fail(_, _, id, _, _) => FailMoves(s, req);
    case List(_, _, _, _) =>
    case LockAcquire(_, _, _, _) => LockMoves(s, req, now);
    case LockRelease(_, _, _) => LockMoves(s, req, now);
    case Resume(_, _) =>
  }

  lemma ClaimMoves(s: State, r: Request, now: int)
    requires r.Claim?
    ensures TasksMoved(s, HandleClaim(s, r, now).0)
  {
    PickedIsEligible(s, now, r.preferType);
  }

  lemma HeartbeatMoves(s: State, r: Request, now: int)
    requires RecordsOk(s) && r.Heartbeat?
    ensures TasksMoved(s, HandleHeartbeat(s, r, now).0)
  {
    if r.id in s.tasks {
      assert RecordOk(r.id, s.tasks[r.id], s.nextToken);
    }
  }

  lemma CompleteMoves(s: State, r: Request)
    requires Valid(s) && r.Complete?
    ensures TasksMoved(s, HandleComplete(s, r).0)
  {
    if HandleComplete(s, r).1.err == Okay {
      assert RecordOk(r.id, s.tasks[r.id], s.nextToken);
      WithOffspringOk(s, r);
      FinishMoves(s, WithOffspring(s, r), r.id, Finished(s.tasks[r.id], r));
    }
  }

  lemma FinishMoves(s: State, s2: State, id: TaskId, t: TaskRecord)
    requires OnlyAdds(s, s2) && id in s.tasks && Moved(s.tasks[id], t)
    ensures TasksMoved(s, s2.(tasks := s2.tasks[id := t]))
  {
  }

  lemma FailMoves(s: State, r: Request)
    requires RecordsOk(s) && r.Fail?
    ensures TasksMoved(s, HandleFail(s, r).0)
  {
    if r.id in s.tasks {
      assert RecordOk(r.id, s.tasks[r.id], s.nextToken);
    }
  }

  lemma LockMoves(s: State, r: Request, now: int)
    requires r.LockAcquire? || r.LockRelease?
    ensures TasksMoved(s, Process(s, r, now).0)
  {
  }

  lemma CreateAdds(s: State, r: Request)
    requires Valid(s) && r.Create?
    ensures OnlyAdds(s, HandleCreate(s, r).0)
  {
    if HandleCreate(s, r).1.err == Okay {
      if r.creatorTask.Some? {
        assert RecordOk(r.creatorTask.value, s.tasks[r.creatorTask.value], s.nextToken);
      }
      var depth := if r.creatorTask.Some? then s.tasks[r.creatorTask.value].spec.depth + 1 else 0;
      var parent := if r.creatorTask.Some? then r.creatorTask else r.spec.parentId;
      AddTaskOk(s, r.spec.(depth := depth, parentId := parent));
    }
  }

  // ---- the order in which tasks were started ----

  predicate Started(s: State, id: TaskId) { id in s.tasks && s.tasks[id].status != Pending }

  // The requirements of the k-th started task were started before it and are done.
  predicate DepsBefore(s: State, starts: seq<TaskId>, k: nat)
    requires k < |starts|
  {
    && starts[k] in s.tasks
    && forall d | d in s.tasks[starts[k]].spec.requiresDeps ::
         d in starts[..k] && d in s.tasks && s.tasks[d].status == Done
  }

  // starts lists every task ever claimed, in order of first claim.
  ghost predicate StartsOk(s: State, starts: seq<TaskId>) {
    && (forall a, b | 0 <= a < b < |starts| :: starts[a] != starts[b])
    && (forall id :: Started(s, id) <==> id in starts)
    && (forall k {:trigger DepsBefore(s, starts, k)} | 0 <= k < |starts| :: DepsBefore(s, starts, k))
  }

  // Steps that start nothing new keep the list.
  lemma StartsKept(s: State, s': State, starts: seq<TaskId>)
    requires StartsOk(s, starts) && TasksMoved(s, s')
    requires forall id :: Started(s', id) <==> Started(s, id)
    ensures StartsOk(s', starts)
  {
    forall k | 0 <= k < |starts| ensures DepsBefore(s', starts, k) {
      assert DepsBefore(s, starts, k);
    }
  }

  lemma StartsExtended(s: State, s': State, starts: seq<TaskId>, id: TaskId)
    requires StartsOk(s, starts) && TasksMoved(s, s')
    requires !Started(s, id) && Started(s', id) && id in s.tasks
    requires RequiresSatisfied(s.tasks, s.tasks[id])
    requires forall x | x != id :: Started(s', x) <==> Started(s, x)
    ensures StartsOk(s', starts + [id])
  {
    var all := starts + [id];
    assert id !in starts;
    forall x ensures Started(s', x) <==> x in all {
      assert x in all <==> x in starts || x == id;
    }
    forall k | 0 <= k < |all| ensures DepsBefore(s', all, k) {
      if k < |starts| {
        assert DepsBefore(s, starts, k) && all[..k] == starts[..k];
      } else {
        assert all[..k] == starts;
        forall d | d in s.tasks[id].spec.requiresDeps ensures d in starts {
          assert Started(s, d);
        }
      }
    }
  }

  lemma ProcessKeepsStarts(s: State, starts: seq<TaskId>, req: Request, now: int)
    returns (starts': seq<TaskId>)
    requires Valid(s) && StartsOk(s, starts)
    ensures StartsOk(Process(s, req, now).0, starts') && starts <= starts'
  {
    var s' := Process(s, req, now).0;
    ProcessMovesTasks(s, req, now);
    if req.Claim? && s' != s {
      var id := s.order[PickIndex(s, now, req.preferType)];
      PickedIsEligible(s, now, req.preferType);
      if s.tasks[id].status == Pending {
        starts' := starts + [id];
        StartsExtended(s, s', starts, id);
        return;
      }
    }
    starts' := starts;
    SameStarted(s, req, now);
    StartsKept(s, s', starts);
  }

  lemma SameStarted(s: State, req: Request, now: int)
    requires Valid(s)
    requires req.Claim? && Process(s, req, now).0 != s ==>
               s.tasks[s.order[PickIndex(s, now, req.preferType)]].status != Pending
    ensures forall id :: Started(Process(s, req, now).0, id) <==> Started(s, id)
  {
    match req
    case Create(_, _, _, _, _) => CreateAdds(s, req);
    case Complete(_, _, _, _, _, _, _) => CompleteStarts(s, req);
    case Heartbeat(_, _, _, _) =>
    case Claim(_, _, _) => ClaimStarts(s, req, now);
    case Fail(_, _, _, _, _) => FailStarts(s, req);
    case List(_, _, _, _) =>
    case LockAcquire(_, _, _, _) => LockMoves(s, req, now);
    case LockRelease(_, _, _) =>
    case Resume(_, _) =>
  }

  lemma CompleteStarts(s: State, r: Request)
    requires Valid(s) && r.Complete?
    ensures forall id :: Started(HandleComplete(s, r).0, id) <==> Started(s, id)
  {
    if HandleComplete(s, r).1.err == Okay {
      assert RecordOk(r.id, s.tasks[r.id], s.nextToken);
      WithOffspringOk(s, r);
      FinishStarts(s, WithOffspring(s, r), r.id, Finished(s.tasks[r.id], r));
    }
  }

  lemma FinishStarts(s: State, s2: State, id: TaskId, t: TaskRecord)
    requires OnlyAdds(s, s2) && id in s.tasks
    requires s.tasks[id].status != Pending && t.status != Pending
    ensures forall x :: Started(s2.(tasks := s2.tasks[id := t]), x) <==> Started(s, x)
  {
  }

  lemma FailStarts(s: State, r: Request)
    requires RecordsOk(s) && r.Fail?
    ensures forall id :: Started(HandleFail(s, r).0, id) <==> Started(s, id)
  {
    if r.id in s.tasks {
      assert RecordOk(r.id, s.tasks[r.id], s.nextToken);
    }
  }

  lemma ClaimStarts(s: State, r: Request, now: int)
    requires r.Claim?
    requires HandleClaim(s, r, now).0 != s ==>
               s.tasks[s.order[PickIndex(s, now, r.preferType)]].status != Pending
    ensures forall id :: Started(HandleClaim(s, r, now).0, id) <==> Started(s, id)
  {
  }
}

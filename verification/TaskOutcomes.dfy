/** What a client gets for a successful create or complete: the ids it is told name exactly the new
    tasks, as it described them, one level deeper and under their parent. */
module TaskOutcomes {
  import opened Common
  import opened TaskTypes
  import opened TaskIds
  import opened TaskMachine
  import opened TaskInvariants

  // A new task: it was not there before, and nobody has started it.
  predicate IsNew(s: State, s': State, id: TaskId, spec: TaskSpec) {
    && id !in s.tasks && id in s'.tasks
    && s'.tasks[id] == TaskRecord(id, spec, Pending, "", 0, 0, None, None, None)
  }

  predicate IsChild(s: State, s': State, ids: seq<TaskId>, specs: seq<TaskSpec>, k: nat,
                    parent: TaskId, depth: int)
    requires k < |ids| && k < |specs|
  {
    IsNew(s, s', ids[k], specs[k].(depth := depth, parentId := Some(parent)))
  }

  lemma AddIsNew(s: State, spec: TaskSpec)
    requires Valid(s) && 0 <= spec.depth <= DEPTH_CAP
    ensures IsNew(s, AddTask(s, spec), FormatId(s.nextSeq), spec)
    ensures AddTask(s, spec).tasks.Keys == s.tasks.Keys + {FormatId(s.nextSeq)}
    ensures AddTask(s, spec).order == s.order + [FormatId(s.nextSeq)]
  {
    FreshId(s);
  }

  ghost predicate AllChildren(s: State, s': State, ids: seq<TaskId>, specs: seq<TaskSpec>,
                              parent: TaskId, depth: int) {
    && |ids| == |specs|
    && forall k | 0 <= k < |ids| :: IsChild(s, s', ids, specs, k, parent, depth)
  }

  lemma {:induction false} ChildrenAreAdded(s: State, specs: seq<TaskSpec>, parent: TaskId, depth: int)
    requires Valid(s) && (0 <= depth <= DEPTH_CAP || |specs| == 0)
    ensures var s1 := AddChildren(s, specs, parent, depth);
            && AllChildren(s, s1, MintedIds(s.nextSeq, |specs|), specs, parent, depth)
            && s1.order == s.order + MintedIds(s.nextSeq, |specs|)
            && s1.nextSeq == s.nextSeq + |specs|
  {
    if |specs| == 0 {
    } else {
      ChildrenAreAdded(s, Front(specs), parent, depth);
      AddChildrenOk(s, Front(specs), parent, depth);
      var s1 := AddChildren(s, Front(specs), parent, depth);
      AddIsNew(s1, ChildSpec(Last(specs), parent, depth));
      AddTaskOk(s1, ChildSpec(Last(specs), parent, depth));
      OneMoreChild(s, s1, AddChildren(s, specs, parent, depth),
                   MintedIds(s.nextSeq, |specs| - 1), specs, FormatId(s1.nextSeq), parent, depth);
    }
  }

  lemma OneMoreChild(s: State, s1: State, s2: State, ids: seq<TaskId>, specs: seq<TaskSpec>,
                     id: TaskId, parent: TaskId, depth: int)
    requires |specs| > 0 && OnlyAdds(s, s1) && OnlyAdds(s1, s2)
    requires AllChildren(s, s1, ids, Front(specs), parent, depth)
    requires IsNew(s1, s2, id, ChildSpec(Last(specs), parent, depth))
    ensures AllChildren(s, s2, ids + [id], specs, parent, depth)
  {
    forall k | 0 <= k < |specs| ensures IsChild(s, s2, ids + [id], specs, k, parent, depth) {
      if k < |specs| - 1 {
        assert IsChild(s, s1, ids, Front(specs), k, parent, depth);
      }
    }
  }

  // The children stay as they are while the merge is added and the parent is closed.
  lemma ChildrenStay(s: State, s1: State, s': State, ids: seq<TaskId>, specs: seq<TaskSpec>,
                     parent: TaskId, depth: int)
    requires AllChildren(s, s1, ids, specs, parent, depth) && parent in s.tasks
    requires forall id | id in s1.tasks && id != parent :: id in s'.tasks && s'.tasks[id] == s1.tasks[id]
    ensures AllChildren(s, s', ids, specs, parent, depth)
  {
    forall k | 0 <= k < |ids| ensures IsChild(s, s', ids, specs, k, parent, depth) {
      assert IsChild(s, s1, ids, specs, k, parent, depth);
    }
  }

  // ---- complete ----

  // The task is done, under nobody's name, with the result it was given.
  predicate Closed(t: TaskRecord, t': TaskRecord, r: Request)
    requires r.Complete?
  {
    && t' == t.(status := Done, ownerAgent := "", ownerToken := 0,
                resultBranch := t'.resultBranch, resultSummary := t'.resultSummary)
    && t'.resultBranch == r.resultBranch
    && t'.resultSummary == Some(r.resultSummary)
  }

  // A merge of the task's branch into main, which can be claimed at once.
  ghost predicate IsMerge(s: State, s': State, id: TaskId, r: Request)
    requires r.Complete?
  {
    && id !in s.tasks && id in s'.tasks && r.id in s.tasks
    && s'.tasks[id].spec.taskType == Merge
    && s'.tasks[id].spec.depth == s.tasks[r.id].spec.depth
    && s'.tasks[id].spec.requiresDeps == [r.id]
    && s'.tasks[id].spec.parentId == Some(r.id)
    && s'.tasks[id].spec.implementBranchSha == r.resultBranch
    && s'.tasks[id].spec.branchBase == Some("main")
    && s'.tasks[id].spec.title == "merge " + r.id
    && s'.tasks[id].spec.prompt == ""
    && forall now :: Claimable(s', id, now)
  }

  // One successful complete, taken apart.
  predicate CompletedBy(s: State, s': State, r: Request, resp: Response)
    requires r.Complete? && resp.CompleteResp?
  {
    && r.id in s.tasks
    && var t := s.tasks[r.id];
       var s2 := AddMerge(AddChildren(s, r.newChildren, r.id, t.spec.depth + 1), t, r.resultBranch);
       && RecordOk(r.id, t, s.nextToken)
       && (t.spec.depth + 1 <= DEPTH_CAP || |r.newChildren| == 0)
       && s' == s2.(tasks := s2.tasks[r.id := Finished(t, r)])
       && resp.childIds == MintedIds(s.nextSeq, |r.newChildren|)
       && (resp.mergeTaskId.Some? <==> NeedsMerge(t, r.resultBranch))
       && (resp.mergeTaskId.Some? ==>
             resp.mergeTaskId.value == FormatId(s.nextSeq + |r.newChildren|))
  }

  lemma CompleteIs(s: State, r: Request)
    requires Valid(s) && r.Complete? && HandleComplete(s, r).1.err == Okay
    ensures CompletedBy(s, HandleComplete(s, r).0, r, HandleComplete(s, r).1)
  {
    assert RecordOk(r.id, s.tasks[r.id], s.nextToken);
  }

  lemma MergeIsMerge(s: State, s1: State, s': State, t: TaskRecord, r: Request)
    requires r.Complete? && Valid(s1) && r.id in s1.tasks && RecordOk(r.id, t, s.nextToken)
    requires OnlyAdds(s, s1) && NeedsMerge(t, r.resultBranch) && r.id in s.tasks && s.tasks[r.id] == t
    requires var s2 := AddMerge(s1, t, r.resultBranch);
             s' == s2.(tasks := s2.tasks[r.id := Finished(t, r)])
    ensures IsMerge(s, s', FormatId(s1.nextSeq), r)
    ensures s'.order == s1.order + [FormatId(s1.nextSeq)]
  {
    AddIsNew(s1, MergeSpec(t, r.resultBranch));
  }

  // The ids returned are the new tasks, in order, as they were described, one level down; a merge
  // id is returned exactly for an implement task with a branch; these are the only new tasks, and
  // no other task changed.
  ghost predicate Delivered(s: State, s': State, r: Request, resp: Response)
    requires r.Complete? && resp.CompleteResp?
  {
    && r.id in s.tasks && r.id in s'.tasks
    && var t := s.tasks[r.id];
       && Closed(t, s'.tasks[r.id], r)
       && AllChildren(s, s', resp.childIds, r.newChildren, r.id, t.spec.depth + 1)
       && (resp.mergeTaskId.Some? <==>
             t.spec.taskType == Implement && r.resultBranch.Some? && r.resultBranch.value != "")
       && (resp.mergeTaskId.Some? ==> IsMerge(s, s', resp.mergeTaskId.value, r))
       && s'.order == s.order + resp.childIds
                      + (if resp.mergeTaskId.Some? then [resp.mergeTaskId.value] else [])
       && (forall id | id in s.tasks && id != r.id :: id in s'.tasks && s'.tasks[id] == s.tasks[id])
  }

  // The merge and the closing, on top of the children.
  lemma MergeDelivers(s: State, s1: State, s': State, r: Request, resp: Response)
    requires r.Complete? && resp.CompleteResp? && r.id in s.tasks
    requires Valid(s1) && OnlyAdds(s, s1) && s1.order == s.order + resp.childIds
    requires var t := s.tasks[r.id];
             var s2 := AddMerge(s1, t, r.resultBranch);
             && RecordOk(r.id, t, s.nextToken)
             && AllChildren(s, s1, resp.childIds, r.newChildren, r.id, t.spec.depth + 1)
             && s' == s2.(tasks := s2.tasks[r.id := Finished(t, r)])
             && resp.mergeTaskId
                == if NeedsMerge(t, r.resultBranch) then Some(FormatId(s1.nextSeq)) else None
    ensures Delivered(s, s', r, resp)
  {
    var t := s.tasks[r.id];
    AddMergeOk(s1, t, r.resultBranch);
    ClosingChanges(s1, AddMerge(s1, t, r.resultBranch), s', r, t);
    ChildrenStay(s, s1, s', resp.childIds, r.newChildren, r.id, t.spec.depth + 1);
    if NeedsMerge(t, r.resultBranch) {
      MergeIsMerge(s, s1, s', t, r);
    }
  }

  lemma ClosingChanges(s1: State, s2: State, s': State, r: Request, t: TaskRecord)
    requires r.Complete? && OnlyAdds(s1, s2) && r.id in s1.tasks
    requires s' == s2.(tasks := s2.tasks[r.id := Finished(t, r)])
    ensures s'.order == s2.order && r.id in s'.tasks && Closed(t, s'.tasks[r.id], r)
    ensures forall id | id in s1.tasks && id != r.id :: id in s'.tasks && s'.tasks[id] == s1.tasks[id]
  {
  }

  lemma ChildrenOk(s: State, specs: seq<TaskSpec>, parent: TaskId, depth: int)
    returns (s1: State, ids: seq<TaskId>)
    requires Valid(s) && (0 <= depth <= DEPTH_CAP || |specs| == 0)
    ensures s1 == AddChildren(s, specs, parent, depth) && ids == MintedIds(s.nextSeq, |specs|)
    ensures Valid(s1) && OnlyAdds(s, s1) && AllChildren(s, s1, ids, specs, parent, depth)
    ensures s1.order == s.order + ids && s1.nextSeq == s.nextSeq + |specs|
  {
    ChildrenAreAdded(s, specs, parent, depth);
    AddChildrenOk(s, specs, parent, depth);
    s1, ids := AddChildren(s, specs, parent, depth), MintedIds(s.nextSeq, |specs|);
  }

  lemma CompletedDelivers(s: State, s': State, r: Request, resp: Response)
    requires Valid(s) && r.Complete? && resp.CompleteResp? && CompletedBy(s, s', r, resp)
    ensures Delivered(s, s', r, resp)
  {
    var s1, ids := ChildrenOk(s, r.newChildren, r.id, s.tasks[r.id].spec.depth + 1);
    MergeDelivers(s, s1, s', r, resp);
  }

  // Every successful complete delivers.
  lemma CompleteDelivers(s: State, r: Request)
    requires Valid(s) && r.Complete? && HandleComplete(s, r).1.err == Okay
    ensures Delivered(s, HandleComplete(s, r).0, r, HandleComplete(s, r).1)
  {
    CompleteIs(s, r);
    CompletedDelivers(s, HandleComplete(s, r).0, r, HandleComplete(s, r).1);
  }

  // ---- list ----

  // A list shows exactly the tasks that pass its filters (the status asked for, if one is; its own
  // agent's, if it asks so), each once, in the order they were minted: at these increasing positions.
  lemma {:induction false} ListsExactly(s: State, r: Request, k: nat) returns (at: seq<nat>)
    requires TableOk(s) && r.List? && k <= |s.order|
    ensures |at| == |Summaries(s, r, k)|
    ensures forall a, b | 0 <= a < b < |at| :: at[a] < at[b]
    ensures forall a | 0 <= a < |at| :: at[a] < k && ShownAs(s, r, at[a], Summaries(s, r, k)[a])
    ensures forall x | 0 <= x < k && Shown(s, r, x) :: x in at
  {
    if k == 0 {
      at := [];
    } else {
      at := ListsExactly(s, r, k - 1);
      assert s.order[k - 1] in s.tasks;
      if Shown(s, r, k - 1) {
        at := at + [k - 1];
      }
    }
  }

  predicate Shown(s: State, r: Request, x: nat)
    requires r.List? && x < |s.order|
  {
    && s.order[x] in s.tasks
    && (r.filterStatus.Some? ==> s.tasks[s.order[x]].status == r.filterStatus.value)
    && (r.onlyMine ==> s.tasks[s.order[x]].ownerAgent == r.agent)
  }

  predicate ShownAs(s: State, r: Request, x: nat, row: TaskSummary)
    requires r.List? && x < |s.order|
  {
    && Shown(s, r, x)
    && var t := s.tasks[s.order[x]];
       && row.id == t.id
       && row.taskType == t.spec.taskType
       && row.title == t.spec.title
       && row.status == t.status
       && row.ownerAgent == t.ownerAgent
       && row.resultBranch == t.resultBranch
  }

  // ---- create ----

  // The outcome of a successful create: the id returned names the new task, as described, one
  // below its creator if there is one and at the root otherwise.
  lemma CreateDelivers(s: State, r: Request)
    requires Valid(s) && r.Create? && HandleCreate(s, r).1.err == Okay
    ensures var (s', resp) := HandleCreate(s, r);
            && s'.order == s.order + [resp.id]
            && (r.creatorTask.None? ==> IsNew(s, s', resp.id, r.spec.(depth := 0)))
            && (r.creatorTask.Some? ==>
                  && r.creatorTask.value in s.tasks
                  && IsNew(s, s', resp.id,
                           r.spec.(depth := s.tasks[r.creatorTask.value].spec.depth + 1,
                                   parentId := r.creatorTask)))
            && (forall d | d in r.spec.requiresDeps :: d in s.tasks)
            && (forall id | id in s.tasks :: id in s'.tasks && s'.tasks[id] == s.tasks[id])
  {
    if r.creatorTask.Some? {
      assert RecordOk(r.creatorTask.value, s.tasks[r.creatorTask.value], s.nextToken);
    }
    FreshId(s);
  }
}

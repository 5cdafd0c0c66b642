/** Properties of whole runs of the task machine: fencing, finality, start order, conservation,
    fair claiming, leases, the main lock and the halt. */
module TaskRuns {
  import opened Common
  import opened TaskTypes
  import opened TaskIds
  import opened TaskMachine
  import opened TaskInvariants

  // The state after deciding vs in order, from s.
  function RunFrom(s: State, vs: seq<DecidedValue>): State {
    if |vs| == 0 then s else Next(RunFrom(s, Front(vs)), Last(vs))
  }

  lemma {:induction false} ReplayIsRun(vs: seq<DecidedValue>)
    ensures Replay(vs) == RunFrom(INIT, vs)
  {
    if |vs| == 0 {
    } else {
      ReplayIsRun(Front(vs));
    }
  }

  lemma {:induction false} RunSplit(s: State, a: seq<DecidedValue>, b: seq<DecidedValue>)
    ensures RunFrom(s, a + b) == RunFrom(RunFrom(s, a), b)
  {
    if |b| == 0 {
      assert a + b == a;
    } else {
      RunSplit(s, a, Front(b));
      assert Front(a + b) == a + Front(b);
    }
  }

  lemma {:induction false} RunValid(s: State, vs: seq<DecidedValue>)
    requires Valid(s)
    ensures Valid(RunFrom(s, vs))
  {
    if |vs| == 0 {
    } else {
      RunValid(s, Front(vs));
      ProcessKeepsValid(RunFrom(s, Front(vs)), Last(vs).req, Last(vs).now);
    }
  }

  // Every state a sequence of decisions can lead to has a valid table.
  lemma ReplayValid(vs: seq<DecidedValue>)
    ensures Valid(Replay(vs))
  {
    RunValid(INIT, vs);
    ReplayIsRun(vs);
  }

  // ---- failures change nothing ----

  // A request answered with an error leaves the state exactly as it was.
  lemma FailuresDoNotMutate(s: State, req: Request, now: int)
    ensures Process(s, req, now).1.err != Okay ==> Process(s, req, now).0 == s
    ensures Process(s, req, now).1.serial == req.serial
  {
  }

  // ---- fencing ----

  // The request acts in the name of token tok.
  predicate Carries(req: Request, tok: Token) {
    match req
    case Create(_, _, _, creator, token) => creator.Some? && token == Some(tok)
    case Heartbeat(_, _, _, token) => token == tok
    case Complete(_, _, _, token, _, _, _) => token == tok
    case Fail(_, _, _, token, _) => token == tok
    case LockAcquire(_, _, _, token) => token == tok
    case LockRelease(_, _, token) => token == tok
    case _ => false
  }

  predicate HeldByTask(s: State, tok: Token) {
    exists id | id in s.tasks :: s.tasks[id].ownerToken == tok
  }

  // A number that was handed out, or is the unset 0, and that nobody holds now.
  predicate Dead(s: State, tok: Token) {
    tok == 0 || (tok < s.nextToken && !HeldByTask(s, tok) && s.mainLock.lockToken != tok)
  }

  // A request carrying a dead token is refused and changes nothing. Token 0 authorises nothing,
  // not even in create and lock-acquire, which do not test for it.
  lemma DeadTokenIsPowerless(s: State, req: Request, now: int, tok: Token)
    requires Valid(s) && Carries(req, tok) && Dead(s, tok)
    ensures Process(s, req, now).1.err != Okay
    ensures Process(s, req, now).0 == s
  {
    match req
    case Create(_, _, _, creator, _) =>
      if creator.value in s.tasks {
        assert RecordOk(creator.value, s.tasks[creator.value], s.nextToken);
      }
    case LockAcquire(_, _, mergeTask, _) =>
      if mergeTask in s.tasks {
        assert RecordOk(mergeTask, s.tasks[mergeTask], s.nextToken);
      }
    case _ =>
  }

  // Numbers handed out before a step stay where they were or disappear; new holders hold new numbers.
  ghost predicate TokensShrink(s: State, s': State) {
    && s.nextToken <= s'.nextToken
    && (forall id | id in s'.tasks && 0 < s'.tasks[id].ownerToken < s.nextToken ::
          id in s.tasks && s.tasks[id].ownerToken == s'.tasks[id].ownerToken)
    && (0 < s'.mainLock.lockToken < s.nextToken ==> s'.mainLock == s.mainLock)
  }

  lemma ProcessShrinksTokens(s: State, req: Request, now: int)
    requires Valid(s)
    ensures TokensShrink(s, Process(s, req, now).0)
  {
    match req
    case Create(_, _, _, _, _) => CreateAdds(s, req);
    case Complete(_, _, _, _, _, _, _) => CompleteShrinks(s, req);
    case Claim(_, _, _) => ClaimShrinks(s, req, now);
    case Heartbeat(_, _, _, _) => RecordShrinks(s, req, now);
    case Fail(_, _, _, _, _) => RecordShrinks(s, req, now);
    case List(_, _, _, _) =>
    case LockAcquire(_, _, _, _) => LockShrinks(s, req, now);
    case LockRelease(_, _, _) => LockShrinks(s, req, now);
    case Resume(_, _) =>
  }

  lemma ClaimShrinks(s: State, r: Request, now: int)
    requires r.Claim?
    ensures TokensShrink(s, HandleClaim(s, r, now).0)
  {
  }

  lemma RecordShrinks(s: State, r: Request, now: int)
    requires r.Heartbeat? || r.Fail?
    ensures TokensShrink(s, Process(s, r, now).0)
  {
  }

  lemma LockShrinks(s: State, r: Request, now: int)
    requires r.LockAcquire? || r.LockRelease?
    ensures TokensShrink(s, Process(s, r, now).0)
  {
  }

  lemma CompleteShrinks(s: State, r: Request)
    requires Valid(s) && r.Complete?
    ensures TokensShrink(s, HandleComplete(s, r).0)
  {
    if HandleComplete(s, r).1.err == Okay {
      assert RecordOk(r.id, s.tasks[r.id], s.nextToken);
      WithOffspringOk(s, r);
    }
  }

  lemma {:induction false} RunShrinksTokens(s: State, vs: seq<DecidedValue>)
    requires Valid(s)
    ensures TokensShrink(s, RunFrom(s, vs))
  {
    if |vs| == 0 {
    } else {
      var s1 := RunFrom(s, Front(vs));
      RunShrinksTokens(s, Front(vs));
      RunValid(s, Front(vs));
      ProcessShrinksTokens(s1, Last(vs).req, Last(vs).now);
      ShrinkTrans(s, s1, RunFrom(s, vs));
    }
  }

  lemma ShrinkTrans(a: State, b: State, c: State)
    requires TokensShrink(a, b) && TokensShrink(b, c)
    ensures TokensShrink(a, c)
  {
  }

  lemma DeadStays(s: State, v: DecidedValue, tok: Token)
    requires Valid(s) && Dead(s, tok)
    ensures Dead(Next(s, v), tok)
  {
    ProcessShrinksTokens(s, v.req, v.now);
  }

  // Superseded, completed, failed or released: a token that is dead stays dead for the whole run,
  // so no later request carrying it is ever obeyed.
  lemma FencedForever(s: State, vs: seq<DecidedValue>, tok: Token)
    requires Valid(s) && Dead(s, tok)
    ensures Dead(RunFrom(s, vs), tok)
    ensures Powerless(RunFrom(s, vs), tok)
  {
    RunShrinksTokens(s, vs);
    RunValid(s, vs);
    var s' := RunFrom(s, vs);
    forall req, now | Carries(req, tok) ensures Refused(s', req, now) {
      DeadTokenIsPowerless(s', req, now, tok);
    }
  }

  predicate Refused(s: State, req: Request, now: int) {
    Process(s, req, now).1.err != Okay && Process(s, req, now).0 == s
  }

  // No request that carries the token is ever obeyed.
  ghost predicate Powerless(s: State, tok: Token) {
    forall req, now | Carries(req, tok) :: Refused(s, req, now)
  }

  // A number belongs to one grant forever: the task that holds it is the only task that ever
  // holds it afterwards, and it never becomes a lock token; likewise for the lock.
  lemma OneGrant(s: State, vs: seq<DecidedValue>, tok: Token, id: TaskId, other: TaskId)
    requires Valid(s) && 0 < tok
    ensures var s' := RunFrom(s, vs);
            id in s.tasks && s.tasks[id].ownerToken == tok ==>
              && s'.mainLock.lockToken != tok
              && (other in s'.tasks && s'.tasks[other].ownerToken == tok ==> other == id)
    ensures var s' := RunFrom(s, vs);
            s.mainLock.lockToken == tok ==>
              && !HeldByTask(s', tok)
              && (s'.mainLock.lockToken == tok ==> s'.mainLock == s.mainLock)
  {
    RunShrinksTokens(s, vs);
    if id in s.tasks {
      assert RecordOk(id, s.tasks[id], s.nextToken);
    }
  }

  // ---- finality and the past of started tasks ----

  lemma {:induction false} RunMovesTasks(s: State, vs: seq<DecidedValue>)
    requires Valid(s)
    ensures TasksMoved(s, RunFrom(s, vs))
  {
    if |vs| == 0 {
    } else {
      RunMovesTasks(s, Front(vs));
      RunValid(s, Front(vs));
      ProcessMovesTasks(RunFrom(s, Front(vs)), Last(vs).req, Last(vs).now);
    }
  }

  lemma {:induction false} RunStarts(vs: seq<DecidedValue>) returns (starts: seq<TaskId>)
    ensures StartsOk(Replay(vs), starts)
    decreases |vs|
  {
    if |vs| == 0 {
      starts := [];
    } else {
      var before := RunStarts(Front(vs));
      ReplayValid(Front(vs));
      starts := ProcessKeepsStarts(Replay(Front(vs)), before, Last(vs).req, Last(vs).now);
    }
  }

  predicate DependsOn(s: State, id: TaskId, dep: TaskId) {
    id in s.tasks && dep in s.tasks[id].spec.requiresDeps
  }

  predicate Chain(s: State, path: seq<TaskId>) {
    forall k | 0 <= k < |path| - 1 :: DependsOn(s, path[k], path[k + 1])
  }

  // Everything a started task depends on, directly or through others, is done.
  lemma {:induction false} StartedPast(vs: seq<DecidedValue>, path: seq<TaskId>)
    requires |path| >= 2 && Chain(Replay(vs), path) && Started(Replay(vs), path[0])
    ensures Last(path) in Replay(vs).tasks && Replay(vs).tasks[Last(path)].status == Done
    decreases |path|
  {
    var s := Replay(vs);
    var starts := RunStarts(vs);
    var k :| 0 <= k < |starts| && starts[k] == path[0];
    assert DepsBefore(s, starts, k) && DependsOn(s, path[0], path[1]);
    if |path| == 2 {
    } else {
      forall j | 0 <= j < |path[1..]| - 1 ensures DependsOn(s, path[1..][j], path[1..][j + 1]) {
        assert DependsOn(s, path[j + 1], path[j + 2]);
      }
      StartedPast(vs, path[1..]);
    }
  }

  // Each step along dependencies goes back in the order of starting.
  lemma {:induction false} ChainGoesBack(s: State, starts: seq<TaskId>, path: seq<TaskId>, k: nat)
    requires StartsOk(s, starts) && |path| >= 2 && Chain(s, path)
    requires k < |starts| && starts[k] == path[0]
    ensures Last(path) in starts[..k]
    decreases |path|
  {
    assert DepsBefore(s, starts, k) && DependsOn(s, path[0], path[1]);
    var j :| 0 <= j < k && starts[j] == path[1];
    if |path| == 2 {
    } else {
      forall i | 0 <= i < |path[1..]| - 1 ensures DependsOn(s, path[1..][i], path[1..][i + 1]) {
        assert DependsOn(s, path[i + 1], path[i + 2]);
      }
      ChainGoesBack(s, starts, path[1..], j);
    }
  }

  // So no cycle of dependencies, however children were declared, runs through a started task.
  lemma NoStartedCycle(vs: seq<DecidedValue>, path: seq<TaskId>)
    requires |path| >= 2 && Chain(Replay(vs), path) && Started(Replay(vs), path[0])
    ensures path[0] != Last(path)
  {
    var starts := RunStarts(vs);
    var k :| 0 <= k < |starts| && starts[k] == path[0];
    ChainGoesBack(Replay(vs), starts, path, k);
  }

  // ---- conservation ----

  // How many tasks a request creates: one per create, the children and the merge of a complete.
  function Minted(s: State, req: Request, now: int): nat {
    if Process(s, req, now).1.err != Okay then 0
    else if req.Create? then 1
    else if req.Complete? && req.id in s.tasks then
      |req.newChildren| + (if NeedsMerge(s.tasks[req.id], req.resultBranch) then 1 else 0)
    else 0
  }

  function MintedBy(s: State, vs: seq<DecidedValue>): nat {
    if |vs| == 0 then 0
    else MintedBy(s, Front(vs)) + Minted(RunFrom(s, Front(vs)), Last(vs).req, Last(vs).now)
  }

  lemma ProcessMints(s: State, req: Request, now: int)
    requires Valid(s)
    ensures |Process(s, req, now).0.order| == |s.order| + Minted(s, req, now)
  {
    if req.Complete? && HandleComplete(s, req).1.err == Okay {
      assert RecordOk(req.id, s.tasks[req.id], s.nextToken);
      WithOffspringOk(s, req);
    }
  }

  lemma {:induction false} TableSize(s: State)
    requires Valid(s)
    ensures |s.tasks| == |s.order|
  {
    assert s.tasks.Keys == OrderSet(s.order) by {
      forall x ensures x in s.tasks.Keys <==> x in OrderSet(s.order) {
        assert x in s.tasks <==> x in s.order;
      }
    }
    OrderDistinct(s);
    DistinctCard(s.order);
  }

  function OrderSet(order: seq<TaskId>): set<TaskId> { set x | x in order }

  lemma OrderDistinct(s: State)
    requires TableOk(s)
    ensures forall a, b | 0 <= a < b < |s.order| :: s.order[a] != s.order[b]
  {
    forall a, b | 0 <= a < b < |s.order| ensures s.order[a] != s.order[b] {
      assert MintedAt(s.order, a) && MintedAt(s.order, b);
      FormatIdInjective(a + 1, b + 1);
    }
  }

  lemma {:induction false} DistinctCard(order: seq<TaskId>)
    requires forall a, b | 0 <= a < b < |order| :: order[a] != order[b]
    ensures |OrderSet(order)| == |order|
  {
    if |order| == 0 {
    } else {
      DistinctCard(Front(order));
      assert OrderSet(order) == OrderSet(Front(order)) + {Last(order)};
    }
  }

  // No record is ever lost or double-counted: the table holds exactly what was minted.
  lemma {:induction false} Conservation(vs: seq<DecidedValue>)
    ensures |Replay(vs).tasks| == MintedBy(INIT, vs)
    ensures |Replay(vs).order| == MintedBy(INIT, vs)
    decreases |vs|
  {
    ReplayValid(vs);
    TableSize(Replay(vs));
    if |vs| == 0 {
    } else {
      Conservation(Front(vs));
      ReplayValid(Front(vs));
      ReplayIsRun(Front(vs));
      ProcessMints(Replay(Front(vs)), Last(vs).req, Last(vs).now);
    }
  }

  // ---- claiming ----

  // Position k holds a task that may be claimed now, of the given type if one is given, and no
  // earlier position does.
  predicate Earliest(s: State, now: int, only: Option<TaskType>, k: nat)
    requires k < |s.order|
  {
    && Offers(s, now, only, k)
    && forall j | 0 <= j < k :: !Offers(s, now, only, j)
  }

  predicate SomePick(s: State, now: int, only: Option<TaskType>) {
    exists k | 0 <= k < |s.order| :: Offers(s, now, only, k)
  }

  // A claim hands out the earliest eligible task of the preferred type; failing that, the earliest
  // eligible task; and none exactly when the swarm is halted or nothing is eligible.
  lemma ClaimIsFair(s: State, r: Request, now: int)
    requires Valid(s) && r.Claim?
    ensures var resp := HandleClaim(s, r, now).1;
            && resp.err == Okay
            && resp.halted == s.halted
            && (resp.none <==> s.halted || !SomePick(s, now, None))
            && (!resp.none ==> exists k | 0 <= k < |s.order| ::
                  && resp.id == s.order[k]
                  && Earliest(s, now, if SomePick(s, now, r.preferType) then r.preferType else None, k)
                  && resp.token == s.nextToken
                  && resp.spec == s.tasks[resp.id].spec)
  {
    FirstEligibleIs(s, now, r.preferType, 0);
    FirstEligibleIs(s, now, None, 0);
    var i := PickIndex(s, now, r.preferType);
    if i < |s.order| {
      assert Offers(s, now, None, i);
      if s.order[i] in s.tasks {
        assert RecordOk(s.order[i], s.tasks[s.order[i]], s.nextToken);
      }
    }
  }

  function EligibleSet(s: State, now: int): set<TaskId> {
    set id | id in s.tasks && Claimable(s, id, now)
  }

  // A successful claim takes exactly its own task out of the eligible ones.
  lemma ClaimTakesOne(s: State, r: Request, now: int)
    requires Valid(s) && r.Claim? && !s.halted && EligibleSet(s, now) != {}
    ensures var (s', resp) := HandleClaim(s, r, now);
            && !resp.none
            && resp.id in EligibleSet(s, now)
            && EligibleSet(s', now) == EligibleSet(s, now) - {resp.id}
            && !s'.halted
  {
    var id :| id in EligibleSet(s, now);
    assert id in s.order;
    var k :| 0 <= k < |s.order| && s.order[k] == id;
    assert Offers(s, now, None, k);
    ClaimIsFair(s, r, now);
    ClaimPicksEligible(s, r, now);
    ClaimGrants(s, r, now);
    var e := HandleClaim(s, r, now);
    TakenOut(s, e.0, e.1.id, now);
  }

  lemma ClaimPicksEligible(s: State, r: Request, now: int)
    requires Valid(s) && r.Claim? && !HandleClaim(s, r, now).1.none
    ensures Claimable(s, HandleClaim(s, r, now).1.id, now)
    ensures !HandleClaim(s, r, now).0.halted
  {
    PickedIsEligible(s, now, r.preferType);
    var i := PickIndex(s, now, r.preferType);
    assert RecordOk(s.order[i], s.tasks[s.order[i]], s.nextToken);
  }

  lemma TakenOut(s: State, s': State, id: TaskId, now: int)
    requires id in s.tasks && s'.tasks.Keys == s.tasks.Keys && s.tasks[id].status != Done
    requires s'.tasks[id].status == InProgress && s'.tasks[id].heartbeat == now
    requires s'.tasks[id].spec == s.tasks[id].spec
    requires forall y | y in s.tasks && y != id :: s'.tasks[y] == s.tasks[y]
    ensures EligibleSet(s', now) == EligibleSet(s, now) - {id}
  {
    forall x | x in s.tasks ensures RequiresSatisfied(s'.tasks, s'.tasks[x])
                                == RequiresSatisfied(s.tasks, s.tasks[x]) {
      SameRequires(s, s', id, x);
    }
  }

  lemma SameRequires(s: State, s': State, id: TaskId, x: TaskId)
    requires id in s.tasks && x in s.tasks && s'.tasks.Keys == s.tasks.Keys
    requires s.tasks[id].status != Done && s'.tasks[id].status != Done
    requires forall y | y in s.tasks && y != id :: s'.tasks[y] == s.tasks[y]
    requires s'.tasks[id].spec == s.tasks[id].spec
    ensures RequiresSatisfied(s'.tasks, s'.tasks[x]) == RequiresSatisfied(s.tasks, s.tasks[x])
  {
    assert s'.tasks[x].spec == s.tasks[x].spec;
    forall d | d in s.tasks[x].spec.requiresDeps
      ensures (d in s'.tasks && s'.tasks[d].status == Done)
          <==> (d in s.tasks && s.tasks[d].status == Done) {
      assert d in s'.tasks.Keys <==> d in s.tasks.Keys;
    }
  }

  // The state and the ids handed out by a series of claims at one moment.
  function ClaimAll(s: State, claims: seq<Request>, now: int): (State, seq<TaskId>)
    requires forall r | r in claims :: r.Claim?
  {
    if |claims| == 0 then (s, [])
    else
      var (s1, ids) := ClaimAll(s, Front(claims), now);
      var (s2, resp) := HandleClaim(s1, Last(claims), now);
      (s2, if resp.none then ids else ids + [resp.id])
  }

  // After k claims: ids were handed out, each once, and what is left of all is still eligible.
  ghost predicate Drained(s: State, now: int, all: set<TaskId>, k: nat, ids: seq<TaskId>) {
    && Valid(s) && !s.halted
    && |ids| == Min(k, |all|)
    && (forall a, b | 0 <= a < b < |ids| :: ids[a] != ids[b])
    && OrderSet(ids) + EligibleSet(s, now) == all
    && OrderSet(ids) !! EligibleSet(s, now)
  }

  // At one moment, m eligible tasks are drained by exactly m claims, each task once, whatever the
  // claims prefer; further claims get nothing.
  lemma {:induction false} Drain(s: State, claims: seq<Request>, now: int)
    requires Valid(s) && !s.halted && forall r | r in claims :: r.Claim?
    ensures DrainedBy(ClaimAll(s, claims, now), now, EligibleSet(s, now), |claims|)
    decreases |claims|
  {
    if |claims| == 0 {
      DrainStart(s, now);
    } else {
      Drain(s, Front(claims), now);
      var (s1, ids) := ClaimAll(s, Front(claims), now);
      DrainClaim(s1, Last(claims), now, EligibleSet(s, now), |claims| - 1, ids);
    }
  }

  ghost predicate DrainedBy(e: (State, seq<TaskId>), now: int, all: set<TaskId>, k: nat) {
    Drained(e.0, now, all, k, e.1)
  }

  lemma DrainStart(s: State, now: int)
    requires Valid(s) && !s.halted
    ensures Drained(s, now, EligibleSet(s, now), 0, [])
  {
  }

  lemma DrainClaim(s: State, r: Request, now: int, all: set<TaskId>, k: nat, ids: seq<TaskId>)
    requires Drained(s, now, all, k, ids) && r.Claim?
    ensures var e := HandleClaim(s, r, now);
            Drained(e.0, now, all, k + 1, if e.1.none then ids else ids + [e.1.id])
  {
    var e := HandleClaim(s, r, now);
    if EligibleSet(s, now) != {} {
      ProcessKeepsValid(s, r, now);
      ClaimTakesOne(s, r, now);
      DrainStep(s, e.0, now, all, k, ids, e.1.id);
    } else {
      NothingEligible(s, r, now);
      LeftToDrain(ids, EligibleSet(s, now), all);
    }
  }

  lemma DrainStep(s: State, s': State, now: int, all: set<TaskId>, k: nat, ids: seq<TaskId>, id: TaskId)
    requires Drained(s, now, all, k, ids) && Valid(s') && !s'.halted
    requires id in EligibleSet(s, now) && EligibleSet(s', now) == EligibleSet(s, now) - {id}
    ensures Drained(s', now, all, k + 1, ids + [id])
  {
    LeftToDrain(ids, EligibleSet(s, now), all);
    OneMoreId(ids, id);
  }

  lemma OneMoreId(ids: seq<TaskId>, id: TaskId)
    requires id !in OrderSet(ids) && forall a, b | 0 <= a < b < |ids| :: ids[a] != ids[b]
    ensures OrderSet(ids + [id]) == OrderSet(ids) + {id}
    ensures forall a, b | 0 <= a < b < |ids + [id]| :: (ids + [id])[a] != (ids + [id])[b]
  {
    forall a | 0 <= a < |ids| ensures ids[a] != id {
      assert ids[a] in OrderSet(ids);
    }
  }

  lemma LeftToDrain(ids: seq<TaskId>, rest: set<TaskId>, all: set<TaskId>)
    requires OrderSet(ids) + rest == all && OrderSet(ids) !! rest
    requires forall a, b | 0 <= a < b < |ids| :: ids[a] != ids[b]
    ensures |ids| + |rest| == |all| && (rest == {} <==> |rest| == 0)
  {
    DistinctCard(ids);
    assert |OrderSet(ids) + rest| == |OrderSet(ids)| + |rest|;
  }

  lemma NothingEligible(s: State, r: Request, now: int)
    requires Valid(s) && r.Claim? && EligibleSet(s, now) == {}
    ensures HandleClaim(s, r, now).0 == s && HandleClaim(s, r, now).1.none
  {
    PickedIsEligible(s, now, r.preferType);
    EligibleMembers(s, now);
  }

  lemma EligibleMembers(s: State, now: int)
    ensures forall id | Claimable(s, id, now) :: id in EligibleSet(s, now)
  {
  }

  // What the claimant gets: the task under its name and a token nobody ever held, as of now;
  // every other task is left alone.
  lemma ClaimGrants(s: State, r: Request, now: int)
    requires Valid(s) && r.Claim?
    ensures var (s', resp) := Process(s, r, now);
            if resp.none then s' == s
            else
              && resp.id in s.tasks && s'.tasks.Keys == s.tasks.Keys
              && resp.spec == s.tasks[resp.id].spec && resp.token != 0
              && s'.tasks[resp.id] == s.tasks[resp.id].(status := InProgress, ownerAgent := r.agent,
                                                        ownerToken := resp.token, heartbeat := now)
              && s'.order == s.order && s'.mainLock == s.mainLock && s'.nextSeq == s.nextSeq
              && s'.halted == s.halted
              && !HeldByTask(s, resp.token) && s.mainLock.lockToken != resp.token
              && (forall id | id in s.tasks && id != resp.id :: s'.tasks[id] == s.tasks[id])
              && (s.tasks[resp.id].ownerToken != 0 ==> Dead(s', s.tasks[resp.id].ownerToken))
  {
    PickedIsEligible(s, now, r.preferType);
    var i := PickIndex(s, now, r.preferType);
    if i < |s.order| {
      assert RecordOk(s.order[i], s.tasks[s.order[i]], s.nextToken);
    }
  }

  // ---- leases ----

  predicate Owns(s: State, id: TaskId, tok: Token) {
    id in s.tasks && s.tasks[id].status == InProgress && s.tasks[id].ownerToken == tok
  }

  // The only ways to lose a task: its own token finishes it, or a claim is applied more than
  // 45 seconds after its last heartbeat.
  predicate EndsOwnership(s: State, v: DecidedValue, id: TaskId, tok: Token)
    requires id in s.tasks
  {
    || (v.req.Complete? && v.req.id == id && v.req.token == tok)
    || (v.req.Fail? && v.req.id == id && v.req.token == tok)
    || (v.req.Claim? && v.now - s.tasks[id].heartbeat > 45)
  }

  lemma OwnerKeepsTask(s: State, v: DecidedValue, id: TaskId, tok: Token)
    requires Valid(s) && Owns(s, id, tok) && !EndsOwnership(s, v, id, tok)
    ensures Owns(Next(s, v), id, tok)
    ensures Next(s, v).tasks[id].ownerAgent == s.tasks[id].ownerAgent
    ensures Next(s, v).tasks[id].heartbeat
            == if v.req.Heartbeat? && v.req.id == id && v.req.token == tok then v.now
               else s.tasks[id].heartbeat
  {
    assert RecordOk(id, s.tasks[id], s.nextToken);
    match v.req
    case Create(_, _, _, _, _) => CreateAdds(s, v.req);
    case Claim(_, _, prefer) => PickedIsEligible(s, v.now, prefer);
    case Complete(_, _, _, _, _, _, _) =>
      if HandleComplete(s, v.req).1.err == Okay {
        assert RecordOk(v.req.id, s.tasks[v.req.id], s.nextToken);
        WithOffspringOk(s, v.req);
      }
    case Heartbeat(_, _, _, _) =>
    case Fail(_, _, _, _, _) =>
    case List(_, _, _, _) =>
    case LockAcquire(_, _, _, _) =>
    case LockRelease(_, _, _) =>
    case Resume(_, _) =>
  }

  // A task that is lost, by its own completing or failing or to another claim, leaves a dead token.
  lemma EndedIsDead(s: State, v: DecidedValue, id: TaskId, tok: Token)
    requires Valid(s) && Owns(s, id, tok) && !Owns(Next(s, v), id, tok)
    ensures Dead(Next(s, v), tok)
  {
    var s' := Next(s, v);
    ProcessShrinksTokens(s, v.req, v.now);
    ProcessKeepsValid(s, v.req, v.now);
    ProcessMovesTasks(s, v.req, v.now);
    assert RecordOk(id, s.tasks[id], s.nextToken);
    assert RecordOk(id, s'.tasks[id], s'.nextToken);
  }

  // So it is powerless for the rest of the run.
  lemma EndedForever(s: State, v: DecidedValue, vs: seq<DecidedValue>, id: TaskId, tok: Token)
    requires Valid(s) && Owns(s, id, tok) && !Owns(Next(s, v), id, tok)
    ensures Powerless(RunFrom(Next(s, v), vs), tok)
  {
    EndedIsDead(s, v, id, tok);
    ProcessKeepsValid(s, v.req, v.now);
    FencedForever(Next(s, v), vs, tok);
  }

  // Completing or failing a task with its token does end the owning.
  lemma FinishingEnds(s: State, v: DecidedValue, id: TaskId, tok: Token)
    requires Valid(s) && Owns(s, id, tok)
    requires (v.req.Complete? || v.req.Fail?) && v.req.id == id && v.req.token == tok
    ensures Process(s, v.req, v.now).1.err == Okay ==> !Owns(Next(s, v), id, tok)
  {
  }

  // Over a run: whoever lost a task, lost it at a step that was allowed to take it, and its token
  // is dead at the end.
  lemma {:induction false} LostOnlyByEnding(s: State, vs: seq<DecidedValue>, id: TaskId, tok: Token)
    returns (k: nat)
    requires Valid(s) && Owns(s, id, tok) && !Owns(RunFrom(s, vs), id, tok)
    ensures k < |vs| && Owns(RunFrom(s, vs[..k]), id, tok)
    ensures EndsOwnership(RunFrom(s, vs[..k]), vs[k], id, tok)
    ensures Dead(RunFrom(s, vs), tok)
    decreases |vs|
  {
    var s1 := RunFrom(s, Front(vs));
    RunValid(s, Front(vs));
    if Owns(s1, id, tok) {
      k := |vs| - 1;
      EndedIsDead(s1, Last(vs), id, tok);
      if !EndsOwnership(s1, Last(vs), id, tok) {
        OwnerKeepsTask(s1, Last(vs), id, tok);
      }
    } else {
      k := LostOnlyByEnding(s, Front(vs), id, tok);
      assert vs[..k] == Front(vs)[..k];
      DeadStays(s1, Last(vs), tok);
    }
  }

  // ---- the main lock ----

  // The holder's merge task is gone, not in progress, silent for more than 45 seconds, or another's.
  predicate LockStale(s: State, now: int) {
    var id := s.mainLock.holderMergeTask;
    || id !in s.tasks
    || s.tasks[id].status != InProgress
    || now - s.tasks[id].heartbeat > 45
    || s.tasks[id].ownerAgent != s.mainLock.holderAgent
  }

  // How a held lock can pass on: its own token releases it, or someone holding a merge task
  // acquires it while the holder's merge task is finished, expired or another agent's.
  predicate EndsLock(s: State, v: DecidedValue) {
    || (v.req.LockRelease? && v.req.lockToken == s.mainLock.lockToken)
    || (v.req.LockAcquire? && Owns(s, v.req.mergeTask, v.req.mergeToken) && LockStale(s, v.now))
  }

  lemma LockKept(s: State, v: DecidedValue)
    requires Valid(s) && s.mainLock.lockToken != 0
    ensures Next(s, v).mainLock != s.mainLock <==> EndsLock(s, v)
    ensures EndsLock(s, v) ==> Dead(Next(s, v), s.mainLock.lockToken)
  {
    ProcessShrinksTokens(s, v.req, v.now);
    if v.req.Complete? && HandleComplete(s, v.req).1.err == Okay {
      assert RecordOk(v.req.id, s.tasks[v.req.id], s.nextToken);
      WithOffspringOk(s, v.req);
    } else if v.req.Create? {
      CreateAdds(s, v.req);
    }
  }

  // Over a run: a lock that is no longer held was given up by such a step, and its token is
  // fenced from then on.
  lemma {:induction false} LockLostOnlyByEnding(s: State, vs: seq<DecidedValue>) returns (k: nat)
    requires Valid(s) && s.mainLock.lockToken != 0 && RunFrom(s, vs).mainLock != s.mainLock
    ensures k < |vs| && RunFrom(s, vs[..k]).mainLock == s.mainLock
    ensures EndsLock(RunFrom(s, vs[..k]), vs[k])
    ensures Dead(RunFrom(s, vs), s.mainLock.lockToken)
    decreases |vs|
  {
    var s1 := RunFrom(s, Front(vs));
    RunValid(s, Front(vs));
    if s1.mainLock == s.mainLock {
      k := |vs| - 1;
      LockKept(s1, Last(vs));
    } else {
      k := LockLostOnlyByEnding(s, Front(vs));
      assert vs[..k] == Front(vs)[..k];
      DeadStays(s1, Last(vs), s.mainLock.lockToken);
    }
  }

  // ---- the halt ----

  predicate Halts(s: State, v: DecidedValue) {
    v.req.Fail? && Process(s, v.req, v.now).1.err == Okay
  }

  // The k-th decision failed a task and nobody has resumed the swarm since.
  predicate HaltedAt(vs: seq<DecidedValue>, k: nat) {
    k < |vs| && Halts(Replay(vs[..k]), vs[k]) && NoResume(vs[k + 1..])
  }

  lemma HaltedAtBefore(vs: seq<DecidedValue>, k: nat)
    requires |vs| > 0 && k < |vs| - 1
    ensures HaltedAt(vs, k) <==> HaltedAt(Front(vs), k) && !Last(vs).req.Resume?
  {
    assert vs[..k] == Front(vs)[..k];
    assert vs[k + 1..] == Front(vs)[k + 1..] + [Last(vs)];
  }

  lemma HaltedAtLast(vs: seq<DecidedValue>)
    requires |vs| > 0
    ensures HaltedAt(vs, |vs| - 1) <==> Halts(Replay(Front(vs)), Last(vs))
  {
    assert vs[..|vs| - 1] == Front(vs) && vs[|vs| - 1 + 1..] == [];
  }

  // Halted exactly when some task failed after the last resume.
  lemma {:induction false} HaltedIff(vs: seq<DecidedValue>)
    ensures Replay(vs).halted <==> exists k: nat :: HaltedAt(vs, k)
    decreases |vs|
  {
    if |vs| == 0 {
    } else {
      HaltedIff(Front(vs));
      HaltStep(Replay(Front(vs)), Last(vs));
      HaltedAtLast(vs);
      forall k: nat | k < |vs| - 1
        ensures HaltedAt(vs, k) <==> HaltedAt(Front(vs), k) && !Last(vs).req.Resume? {
        HaltedAtBefore(vs, k);
      }
    }
  }

  predicate NoResume(vs: seq<DecidedValue>) { forall v | v in vs :: !v.req.Resume? }

  lemma HaltStep(s: State, v: DecidedValue)
    ensures Next(s, v).halted <==> Halts(s, v) || (s.halted && !v.req.Resume?)
  {
    if v.req.Complete? {
      CompleteHaltFrame(s, v.req);
    }
  }

  lemma CompleteHaltFrame(s: State, r: Request)
    requires r.Complete?
    ensures HandleComplete(s, r).0.halted == s.halted
  {
    if r.id in s.tasks {
      var t := s.tasks[r.id];
      OffspringHalt(s, t, r.newChildren, t.spec.depth + 1, r.resultBranch);
    }
  }

  lemma OffspringHalt(s: State, t: TaskRecord, specs: seq<TaskSpec>, depth: int, branch: Option<string>)
    ensures AddMerge(AddChildren(s, specs, t.id, depth), t, branch).halted == s.halted
  {
    AddChildrenHalt(s, specs, t.id, depth);
  }

  lemma {:induction false} AddChildrenHalt(s: State, specs: seq<TaskSpec>, parent: TaskId, depth: int)
    ensures AddChildren(s, specs, parent, depth).halted == s.halted
  {
    if |specs| == 0 {
    } else {
      AddChildrenHalt(s, Front(specs), parent, depth);
    }
  }

  // Who is working on what.
  function Owners(s: State): set<(TaskId, Token)> {
    set id | id in s.tasks && s.tasks[id].ownerToken != 0 :: (id, s.tasks[id].ownerToken)
  }

  // While halted, the swarm only drains: nobody is given work, and the table still names a failed
  // task as the cause.
  lemma HaltedOnlyDrains(s: State, v: DecidedValue)
    requires Valid(s) && s.halted && !v.req.Resume?
    ensures Owners(Next(s, v)) <= Owners(s)
    ensures Next(s, v).halted
  {
    HaltStep(s, v);
    match v.req
    case Create(_, _, _, _, _) => CreateAdds(s, v.req);
    case Complete(_, _, _, _, _, _, _) =>
      if HandleComplete(s, v.req).1.err == Okay {
        assert RecordOk(v.req.id, s.tasks[v.req.id], s.nextToken);
        WithOffspringOk(s, v.req);
      }
    case Claim(_, _, _) =>
    case Heartbeat(_, _, _, _) =>
    case Fail(_, _, _, _, _) =>
    case List(_, _, _, _) =>
    case LockAcquire(_, _, _, _) =>
    case LockRelease(_, _, _) =>
    case Resume(_, _) =>
  }

  lemma {:induction false} HaltedRunDrains(s: State, vs: seq<DecidedValue>)
    requires Valid(s) && s.halted && NoResume(vs)
    ensures Owners(RunFrom(s, vs)) <= Owners(s) && RunFrom(s, vs).halted
  {
    if |vs| == 0 {
    } else {
      HaltedRunDrains(s, Front(vs));
      RunValid(s, Front(vs));
      HaltedOnlyDrains(RunFrom(s, Front(vs)), Last(vs));
    }
  }
}

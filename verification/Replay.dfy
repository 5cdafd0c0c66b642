/** tm-replay's main loop (tm-replay.cc): one lagging database per replica, advanced by wall clock,
    a leading one that sees every entry, and the events derived from its changes. */
module Replay {
  import opened Common
  import opened TaskTypes
  import opened TaskMachine
  import opened TaskInvariants
  import opened DecisionLog
  import TaskRuns
  import Json
  import Wire
  import Store = TaskManagerDb

  // ---- how far a replica has got ----

  // When the replica applied the entry; old logs have only the leader's clock.
  function When(e: Entry): int { if e.appliedAt >= 0 then e.appliedAt else e.now }

  // The first entry from k on that was applied after t.
  function Reach(es: seq<Entry>, k: nat, t: int): (r: nat)
    requires k <= |es|
    ensures k <= r <= |es|
    ensures forall j | k <= j < r :: When(es[j]) <= t
    ensures r < |es| ==> When(es[r]) > t
    decreases |es| - k
  {
    if k == |es| || When(es[k]) > t then k else Reach(es, k + 1, t)
  }

  lemma ReachUnique(es: seq<Entry>, k: nat, t: int, r: nat)
    requires k <= r <= |es|
    requires forall j | k <= j < r :: When(es[j]) <= t
    requires r < |es| ==> When(es[r]) > t
    ensures r == Reach(es, k, t)
  {
  }

  // Advancing twice is advancing once, to the later time: going back to an earlier one is idle.
  lemma AdvanceTwice(es: seq<Entry>, k: nat, t: int, u: int)
    requires k <= |es|
    ensures Reach(es, Reach(es, k, t), u) == Reach(es, k, Max(t, u))
  {
    var x := Reach(es, k, t);
    ReachUnique(es, k, Max(t, u), Reach(es, x, u));
  }

  // Where a replica stands after being advanced to the clock of each event in turn.
  function Advanced(es: seq<Entry>, events: seq<Entry>): (r: nat)
    ensures r <= |es|
  {
    if |events| == 0 then 0 else Reach(es, Advanced(es, Front(events)), Last(events).now)
  }

  function Latest(events: seq<Entry>): int
    requires |events| > 0
  {
    if |events| == 1 then events[0].now else Max(Latest(Front(events)), Last(events).now)
  }

  // It stands where one advance to the latest clock seen would have put it.
  lemma {:induction false} AdvancedIs(es: seq<Entry>, events: seq<Entry>)
    requires |events| > 0
    ensures Advanced(es, events) == Reach(es, 0, Latest(events))
  {
    if |events| == 1 {
    } else {
      AdvancedIs(es, Front(events));
      AdvanceTwice(es, 0, Latest(Front(events)), Last(events).now);
    }
  }

  lemma {:induction false} LatestIs(events: seq<Entry>)
    requires |events| > 0
    ensures forall k | 0 <= k < |events| :: events[k].now <= Latest(events)
    ensures exists k | 0 <= k < |events| :: events[k].now == Latest(events)
  {
    if |events| == 1 {
      assert events[0].now == Latest(events);
    } else {
      LatestIs(Front(events));
      if Last(events).now < Latest(Front(events)) {
        var k :| 0 <= k < |Front(events)| && Front(events)[k].now == Latest(Front(events));
        assert events[k].now == Latest(events);
      }
    }
  }

  // Applied at or before t, as far as the entry tells.
  predicate AppliedBy(e: Entry, t: int) {
    if e.appliedAt >= 0 then e.appliedAt <= t else e.now <= t
  }

  predicate AppliedInTime(e: Entry, events: seq<Entry>) {
    exists k | 0 <= k < |events| :: AppliedBy(e, events[k].now)
  }

  lemma InTimeIs(e: Entry, events: seq<Entry>)
    requires |events| > 0
    ensures AppliedInTime(e, events) <==> When(e) <= Latest(events)
  {
    LatestIs(events);
    if When(e) <= Latest(events) {
      var k :| 0 <= k < |events| && events[k].now == Latest(events);
      assert AppliedBy(e, events[k].now);
    }
  }

  // In a log whose times never go back, that is every entry applied by the clock of some event seen,
  // and no other.
  lemma AdvancedApplies(es: seq<Entry>, events: seq<Entry>, j: nat)
    requires |events| > 0 && j < |es|
    requires forall a, b, t | 0 <= a <= b < |es| && AppliedBy(es[b], t) :: AppliedBy(es[a], t)
    ensures j < Advanced(es, events) <==> AppliedInTime(es[j], events)
  {
    AdvancedIs(es, events);
    InTimeIs(es[j], events);
    var r := Advanced(es, events);
    if r <= j {
      assert AppliedBy(es[j], When(es[j])) && AppliedBy(es[r], When(es[j]));
    }
  }

  // The source takes it for granted that replica 0 always keeps up with the entry just replayed.
  // It does exactly when everything so far was applied by the clock of some entry so far ...
  lemma KeepsUp(es: seq<Entry>, k: nat)
    requires k < |es|
    ensures k < Advanced(es, es[..k + 1])
            <==> forall j | 0 <= j <= k :: AppliedInTime(es[j], es[..k + 1])
  {
    AdvancedIs(es, es[..k + 1]);
    forall j | 0 <= j <= k
      ensures AppliedInTime(es[j], es[..k + 1]) <==> When(es[j]) <= Latest(es[..k + 1]) {
      InTimeIs(es[j], es[..k + 1]);
    }
  }

  // ... and an entry applied a second after it was stamped leaves it behind.
  lemma FallsBehind(req: Request)
    ensures var es := [Entry(1, 10, 11, Wire.Path(req), req)]; Advanced(es, es[..1]) == 0
  {
    var es := [Entry(1, 10, 11, Wire.Path(req), req)];
    AdvancedIs(es, es[..1]);
  }

  // ---- events ----

  datatype What =
    | Reclaim(task: TaskId, from: string, to: string)
    | LockChange(acquired: bool, holder: string, token: Token)
    | Rejected(err: Errc)

  datatype Event = Event(seqNo: int, now: int, what: What)

  // Who owns which task, as a dump of the database shows it.
  function OwnersBelow(s: State, k: nat): map<TaskId, string>
    requires k <= |s.order| && forall id | id in s.order :: id in s.tasks
  {
    if k == 0 then map[]
    else
      var t := s.tasks[s.order[k - 1]];
      if t.id == "" then OwnersBelow(s, k - 1) else OwnersBelow(s, k - 1)[t.id := t.ownerAgent]
  }

  predicate ChangedHands(prev: map<TaskId, string>, cur: map<TaskId, string>, id: TaskId)
    requires id in cur
  {
    id in prev && prev[id] != "" && cur[id] != "" && cur[id] != prev[id]
  }

  function Handover(prev: map<TaskId, string>, cur: map<TaskId, string>, id: TaskId): seq<What>
    requires id in cur
  {
    if ChangedHands(prev, cur, id) then [Reclaim(id, prev[id], cur[id])] else []
  }

  // The handovers among the keys, in key order.
  function Handovers(prev: map<TaskId, string>, cur: map<TaskId, string>, keys: set<TaskId>): seq<What>
    requires keys <= cur.Keys
    decreases keys
  {
    if keys == {} then []
    else
      var k := Json.FirstKey(keys);
      Handover(prev, cur, k) + Handovers(prev, cur, keys - {k})
  }

  function Owners(s: State): map<TaskId, string>
    requires forall id | id in s.order :: id in s.tasks
  {
    OwnersBelow(s, |s.order|)
  }

  function LockEvents(was: MainLock, lock: MainLock): seq<What> {
    if lock.holderAgent != was.holderAgent || lock.lockToken != was.lockToken then
      [LockChange(lock.holderAgent != "", lock.holderAgent, lock.lockToken)]
    else []
  }

  function Rejections(err: Errc): seq<What> { if err != Okay then [Rejected(err)] else [] }

  // What the loop derives from one entry: from the states before and after, and the outcome.
  function Derived(s: State, s': State, err: Errc): seq<What>
    requires forall id | id in s.order :: id in s.tasks
    requires forall id | id in s'.order :: id in s'.tasks
  {
    var now := Owners(s');
    LockEvents(s.mainLock, s'.mainLock) + Handovers(Owners(s), now, now.Keys) + Rejections(err)
  }

  // ---- what those events mean ----

  lemma {:induction false} OwnersBelowIs(s: State, k: nat)
    requires TableOk(s) && RecordsOk(s) && k <= |s.order|
    ensures forall id :: id in OwnersBelow(s, k) <==> id in s.order[..k]
    ensures forall id | id in OwnersBelow(s, k) :: OwnersBelow(s, k)[id] == s.tasks[id].ownerAgent
  {
    if k == 0 {
    } else {
      OwnersBelowIs(s, k - 1);
      var id := s.order[k - 1];
      assert s.order[..k] == s.order[..k - 1] + [id];
      NamedRecord(s, k - 1);
    }
  }

  lemma NamedRecord(s: State, k: nat)
    requires TableOk(s) && RecordsOk(s) && k < |s.order|
    ensures s.order[k] in s.tasks && s.tasks[s.order[k]].id == s.order[k] != ""
  {
    assert MintedAt(s.order, k);
    assert RecordOk(s.order[k], s.tasks[s.order[k]], s.nextToken);
  }

  // The dump shows every task's owner.
  lemma OwnersIs(s: State)
    requires TableOk(s) && RecordsOk(s)
    ensures Owners(s).Keys == s.tasks.Keys
    ensures forall id | id in s.tasks :: Owners(s)[id] == s.tasks[id].ownerAgent
  {
    OwnersBelowIs(s, |s.order|);
    assert s.order[..|s.order|] == s.order;
  }

  // At most one task changes hands, so the list is that one.
  lemma {:induction false} OnlyHandover(prev: map<TaskId, string>, cur: map<TaskId, string>,
                                        keys: set<TaskId>, id: TaskId)
    requires keys <= cur.Keys
    requires forall k | k in keys && k != id :: !ChangedHands(prev, cur, k)
    ensures Handovers(prev, cur, keys) == if id in keys then Handover(prev, cur, id) else []
    decreases keys
  {
    if keys == {} {
    } else {
      var k := Json.FirstKey(keys);
      OnlyHandover(prev, cur, keys - {k}, id);
    }
  }

  // The request takes the task from an agent whose lease ran out and gives it to another one.
  predicate TakesOver(s: State, req: Request, now: int, id: TaskId) {
    && req.Claim?
    && !Process(s, req, now).1.none
    && id == Process(s, req, now).1.id
    && id in s.tasks
    && s.tasks[id].status == InProgress
    && now - s.tasks[id].heartbeat > 45
    && s.tasks[id].ownerAgent != ""
    && req.agent != ""
    && req.agent != s.tasks[id].ownerAgent
  }

  // What one request, by its own account, amounts to.
  function Meaning(s: State, req: Request, now: int): seq<What> {
    var resp := Process(s, req, now).1;
    if resp.err != Okay then [Rejected(resp.err)]
    else match req
      case Claim(_, agent, _) =>
        if TakesOver(s, req, now, resp.id) then
          [Reclaim(resp.id, s.tasks[resp.id].ownerAgent, agent)]
        else []
      case LockAcquire(_, agent, _, _) => [LockChange(agent != "", agent, resp.lockToken)]
      case LockRelease(_, _, _) => [LockChange(false, "", 0)]
      case _ => []
  }

  // Every task with an owner had it before, except one just claimed.
  ghost predicate OwnersKept(s: State, s': State, id: TaskId) {
    forall k | k in s'.tasks && k != id && s'.tasks[k].ownerAgent != "" ::
      k in s.tasks && s'.tasks[k].ownerAgent == s.tasks[k].ownerAgent
  }

  lemma ClaimOwners(s: State, r: Request, now: int)
    requires Valid(s) && r.Claim?
    ensures var (s', resp) := Process(s, r, now);
            && OwnersKept(s, s', resp.id)
            && s'.mainLock == s.mainLock
            && resp.err == Okay
            && if resp.none then s' == s
               else && resp.id in s.tasks
                    && s'.tasks[resp.id].ownerAgent == r.agent
                    && (s.tasks[resp.id].status == Pending
                        || (s.tasks[resp.id].status == InProgress && now - s.tasks[resp.id].heartbeat > 45))
  {
    PickedIsEligible(s, now, r.preferType);
    var i := PickIndex(s, now, r.preferType);
    if i < |s.order| {
      assert RecordOk(s.order[i], s.tasks[s.order[i]], s.nextToken);
    }
  }

  lemma CompleteOwners(s: State, r: Request)
    requires Valid(s) && r.Complete?
    ensures OwnersKept(s, HandleComplete(s, r).0, "") && HandleComplete(s, r).0.mainLock == s.mainLock
  {
    if HandleComplete(s, r).1.err == Okay {
      assert RecordOk(r.id, s.tasks[r.id], s.nextToken);
      WithOffspringOk(s, r);
      AddedUnowned(s, WithOffspring(s, r));
    }
  }

  lemma AddedUnowned(s: State, s2: State)
    requires OnlyAdds(s, s2) && RecordsOk(s2)
    ensures OwnersKept(s, s2, "")
  {
    forall k | k in s2.tasks && k !in s.tasks ensures s2.tasks[k].ownerAgent == "" {
      assert RecordOk(k, s2.tasks[k], s2.nextToken);
    }
  }

  lemma OthersKeepOwners(s: State, req: Request, now: int)
    requires Valid(s) && !req.Claim?
    ensures OwnersKept(s, Process(s, req, now).0, "")
    ensures !req.LockAcquire? && !req.LockRelease? ==> Process(s, req, now).0.mainLock == s.mainLock
  {
    if req.Create? {
      CreateOwners(s, req);
    } else if req.Complete? {
      CompleteOwners(s, req);
    } else {
      RestKeepOwners(s, req, now);
    }
  }

  lemma CreateOwners(s: State, r: Request)
    requires Valid(s) && r.Create?
    ensures OwnersKept(s, HandleCreate(s, r).0, "") && HandleCreate(s, r).0.mainLock == s.mainLock
  {
    CreateAdds(s, r);
    CreateOk(s, r);
    AddedUnowned(s, HandleCreate(s, r).0);
  }

  lemma RestKeepOwners(s: State, r: Request, now: int)
    requires !r.Create? && !r.Claim? && !r.Complete?
    ensures OwnersKept(s, Process(s, r, now).0, "")
    ensures !r.LockAcquire? && !r.LockRelease? ==> Process(s, r, now).0.mainLock == s.mainLock
  {
  }

  lemma HandoversAre(s: State, s': State, id: TaskId)
    requires Valid(s) && Valid(s') && OwnersKept(s, s', id)
    ensures Handovers(Owners(s), Owners(s'), Owners(s').Keys)
            == if id in s.tasks && id in s'.tasks && s.tasks[id].ownerAgent != ""
                  && s'.tasks[id].ownerAgent != "" && s'.tasks[id].ownerAgent != s.tasks[id].ownerAgent
               then [Reclaim(id, s.tasks[id].ownerAgent, s'.tasks[id].ownerAgent)] else []
  {
    OwnersIs(s);
    OwnersIs(s');
    OnlyHandover(Owners(s), Owners(s'), Owners(s').Keys, id);
  }

  // No owner changed, apart from one claim.
  lemma QuietStep(s: State, s': State, err: Errc)
    requires Valid(s) && Valid(s') && OwnersKept(s, s', "")
    ensures Derived(s, s', err) == LockEvents(s.mainLock, s'.mainLock) + Rejections(err)
  {
    NoEmptyId(s);
    HandoversAre(s, s', "");
  }

  lemma NoEmptyId(s: State)
    requires TableOk(s)
    ensures "" !in s.tasks
  {
    forall k | 0 <= k < |s.order| ensures s.order[k] != "" {
      assert MintedAt(s.order, k);
    }
  }

  lemma ClaimMeaning(s: State, r: Request, now: int)
    requires Valid(s) && r.Claim?
    ensures Valid(Process(s, r, now).0)
    ensures Derived(s, Process(s, r, now).0, Process(s, r, now).1.err) == Meaning(s, r, now)
  {
    ProcessKeepsValid(s, r, now);
    ClaimOwners(s, r, now);
    var (s', resp) := Process(s, r, now);
    HandoversAre(s, s', resp.id);
    if resp.id in s.tasks {
      assert RecordOk(resp.id, s.tasks[resp.id], s.nextToken);
    }
  }

  lemma LockMeaning(s: State, r: Request, now: int)
    requires Valid(s) && (r.LockAcquire? || r.LockRelease?)
    ensures var (s', resp) := Process(s, r, now);
            LockEvents(s.mainLock, s'.mainLock) + Rejections(resp.err) == Meaning(s, r, now)
  {
  }

  lemma OtherMeaning(s: State, r: Request, now: int)
    requires !r.Claim? && !r.LockAcquire? && !r.LockRelease?
    ensures Rejections(Process(s, r, now).1.err) == Meaning(s, r, now)
  {
  }

  // The events read off the two states are exactly what the request meant: one reclaim for a claim
  // that takes over an expired lease between two agents, one lock change for each acquisition or
  // release, one rejection for each refused request, and nothing for anything else.
  lemma DerivedIsMeaning(s: State, req: Request, now: int)
    requires Valid(s)
    ensures Valid(Process(s, req, now).0)
    ensures Derived(s, Process(s, req, now).0, Process(s, req, now).1.err) == Meaning(s, req, now)
  {
    var (s', resp) := Process(s, req, now);
    ProcessKeepsValid(s, req, now);
    if req.Claim? {
      ClaimMeaning(s, req, now);
    } else {
      OthersKeepOwners(s, req, now);
      QuietStep(s, s', resp.err);
      if req.LockAcquire? || req.LockRelease? {
        LockMeaning(s, req, now);
      } else {
        OtherMeaning(s, req, now);
      }
    }
  }

  // ---- the loop ----

  // All events of a run over the entries.
  function Story(es: seq<Entry>): seq<Event> {
    if |es| == 0 then []
    else Story(Front(es)) + Told(Last(es), Meaning(StateAfter(Front(es)), Last(es).req, Last(es).now))
  }

  function Told(e: Entry, whats: seq<What>): seq<Event> {
    seq(|whats|, k requires 0 <= k < |whats| => Event(e.seqNo, e.now, whats[k]))
  }

  // A map from task to owner, filled from the dump of a database.
  method LoadOwners(db: Store.Db) returns (m: map<TaskId, string>)
    requires db.Indexed()
    ensures m == Owners(db.Abs())
  {
    m := map[];
    for k := 0 to |db.order|
      invariant m == OwnersBelow(db.Abs(), k)
    {
      var t := db.tasks[db.order[k]];
      if t.id != "" {
        m := m[t.id := t.ownerAgent];
      }
    }
  }

  method FindHandovers(prev: map<TaskId, string>, cur: map<TaskId, string>) returns (out: seq<What>)
    ensures out == Handovers(prev, cur, cur.Keys)
  {
    out := [];
    var keys := cur.Keys;
    while keys != {}
      invariant keys <= cur.Keys
      invariant out + Handovers(prev, cur, keys) == Handovers(prev, cur, cur.Keys)
      decreases keys
    {
      var id := Json.FirstKey(keys);
      if id in prev && cur[id] != "" && cur[id] != prev[id] && prev[id] != "" {
        out := out + [Reclaim(id, prev[id], cur[id])];
      }
      keys := keys - {id};
    }
  }

  class Replayer {
    const logs: seq<seq<Entry>>
    const dbs: seq<Store.Db>
    const leader: Store.Db
    var nextIdx: seq<nat>

    // Each database is the replay of the part of its log that was reached.
    predicate Valid()
      reads this, dbs, leader
    {
      && |dbs| == |logs| == |nextIdx|
      && leader !in dbs
      && leader.Indexed()
      && (forall i, j | 0 <= i < j < |dbs| :: dbs[i] != dbs[j])
      && (forall i | 0 <= i < |logs| :: nextIdx[i] <= |logs[i]|)
      && (forall i | 0 <= i < |logs| :: ReplicaOk(i, nextIdx[i]))
    }

    predicate ReplicaOk(i: nat, k: nat)
      requires i < |dbs| && |dbs| == |logs|
      reads dbs[i]
    {
      k <= |logs[i]| && dbs[i].Indexed() && dbs[i].Abs() == StateAfter(logs[i][..k])
    }

    constructor (logs: seq<seq<Entry>>)
      ensures Valid() && this.logs == logs && leader.Abs() == INIT
      ensures nextIdx == seq(|logs|, _ => 0)
      ensures fresh(leader) && forall d | d in dbs :: fresh(d)
    {
      var ds: seq<Store.Db> := [];
      while |ds| < |logs|
        invariant |ds| <= |logs|
        invariant forall i, j | 0 <= i < j < |ds| :: ds[i] != ds[j]
        invariant forall d | d in ds :: fresh(d) && d.Indexed() && d.Abs() == INIT
      {
        var d := new Store.Db();
        ds := ds + [d];
      }
      this.logs, dbs := logs, ds;
      leader := new Store.Db();
      nextIdx := seq(|logs|, _ => 0);
      new;
      assert forall i | 0 <= i < |logs| :: logs[i][..0] == [] && ds[i] in ds;
    }

    method ApplyNext(i: nat)
      requires Valid() && i < |logs| && nextIdx[i] < |logs[i]|
      modifies this, dbs[i]
      ensures Valid() && nextIdx == old(nextIdx)[i := old(nextIdx)[i] + 1]
    {
      var k := nextIdx[i];
      var e := logs[i][k];
      assert ReplicaOk(i, k);
      var _ := dbs[i].ProcessReq(e.req, e.now);
      nextIdx := nextIdx[i := k + 1];
      assert Front(logs[i][..k + 1]) == logs[i][..k] && Last(logs[i][..k + 1]) == e;
      assert ReplicaOk(i, k + 1);
      forall j | 0 <= j < |logs| && j != i ensures ReplicaOk(j, nextIdx[j]) {
        assert old(ReplicaOk(j, nextIdx[j]));
        assert dbs[j] != dbs[i];
      }
    }

    // Apply what replica i had applied by time t.
    method AdvanceReplicaTo(i: nat, t: int)
      requires Valid() && i < |logs|
      modifies this, dbs[i]
      ensures Valid()
      ensures nextIdx == old(nextIdx)[i := Reach(logs[i], old(nextIdx)[i], t)]
    {
      while nextIdx[i] < |logs[i]|
        invariant Valid()
        invariant nextIdx == old(nextIdx)[i := nextIdx[i]]
        invariant Reach(logs[i], nextIdx[i], t) == Reach(logs[i], old(nextIdx)[i], t)
        decreases |logs[i]| - nextIdx[i]
      {
        if When(logs[i][nextIdx[i]]) > t {
          break;
        }
        ApplyNext(i);
      }
    }

    method AdvanceAll(t: int)
      requires Valid()
      modifies this, dbs
      ensures Valid() && |nextIdx| == |old(nextIdx)|
      ensures forall i | 0 <= i < |logs| :: nextIdx[i] == Reach(logs[i], old(nextIdx)[i], t)
    {
      for i := 0 to |logs|
        invariant Valid() && |nextIdx| == |old(nextIdx)|
        invariant forall j | 0 <= j < i :: nextIdx[j] == Reach(logs[j], old(nextIdx)[j], t)
        invariant forall j | i <= j < |logs| :: nextIdx[j] == old(nextIdx)[j]
      {
        AdvanceReplicaTo(i, t);
      }
    }

    // Run one entry on the leading database and derive its events.
    method Lead(e: Entry, prevOwners: map<TaskId, string>, prevLock: MainLock)
      returns (whats: seq<What>, owners: map<TaskId, string>)
      requires leader.Indexed() && TaskInvariants.Valid(leader.Abs())
      requires prevOwners == Owners(leader.Abs()) && prevLock == leader.mainLock
      modifies leader
      ensures leader.Indexed() && leader.Abs() == Process(old(leader.Abs()), e.req, e.now).0
      ensures whats == Meaning(old(leader.Abs()), e.req, e.now)
      ensures owners == Owners(leader.Abs())
    {
      DerivedIsMeaning(leader.Abs(), e.req, e.now);
      var resp := leader.ProcessReq(e.req, e.now);
      owners := LoadOwners(leader);
      var handovers := FindHandovers(prevOwners, owners);
      whats := LockEvents(prevLock, leader.mainLock) + handovers + Rejections(resp.err);
    }

    // Replay every entry of replica 0's log, and let each replica see what it had seen by then.
    method Run() returns (events: seq<Event>)
      requires Valid() && |logs| > 0 && leader.Abs() == INIT && nextIdx == seq(|logs|, _ => 0)
      modifies this, leader, dbs
      ensures Valid() && leader.Abs() == StateAfter(logs[0]) && events == Story(logs[0])
      ensures forall i | 0 <= i < |logs| :: nextIdx[i] == Advanced(logs[i], logs[0])
    {
      var es := logs[0];
      events := [];
      var owners := LoadOwners(leader);
      var lock := NO_LOCK;
      for k := 0 to |es|
        invariant Valid() && leader.Abs() == StateAfter(es[..k])
        invariant owners == Owners(leader.Abs()) && lock == leader.mainLock
        invariant events == Story(es[..k])
        invariant forall i | 0 <= i < |logs| :: nextIdx[i] == Advanced(logs[i], es[..k])
      {
        StateAfterValid(es[..k]);
        assert Front(es[..k + 1]) == es[..k] && Last(es[..k + 1]) == es[k];
        var whats;
        whats, owners := Lead(es[k], owners, lock);
        AdvanceAll(es[k].now);
        events := events + Told(es[k], whats);
        lock := leader.mainLock;
      }
      assert es[..|es|] == es;
    }
  }
}

/** A replica's own decision log: which applied values it misses, and what it replays to. */
module Journal {
  import opened Common
  import opened TaskTypes
  import opened ReplicaSpec
  import opened Cluster
  import opened History
  import opened Safety
  import Quorums
  import Agreement
  import DecisionLog
  import Transport
  import Json

  // ---- what a step applies and what it logs ----

  // The entries applied when applying below slot t.
  function Passed(r: Replica, t: nat): seq<DecidedValue> {
    var e := Min(t, End(r));
    if r.logBase <= r.applied < e then r.log[r.applied - r.logBase..e - r.logBase] else []
  }

  // What replica i applies in a step without logging it: as a new leader, its own entries below
  // the base of the log it adopts.
  function Silent(s: Sys, a: Action, i: nat): seq<DecidedValue> {
    var w := Winner(s, a);
    if i < |s.rs| && w.Some? && w.value.i == i then
      Passed(s.rs[i], BestOf(w.value.responses).slot)
    else []
  }

  predicate OnlyLists(vs: seq<DecidedValue>) { forall v | v in vs :: v.req.List? }

  // Whenever replica i became leader, it had applied everything below the base of the log it
  // adopted, or nothing but task lists was missing.
  predicate NothingMissed(n: nat, acts: seq<Action>, i: nat) {
    |acts| == 0
    || (NothingMissed(n, Front(acts), i) && OnlyLists(Silent(Run(n, Front(acts)), Last(acts), i)))
  }

  // How many lines the catch-ups of a run left out.
  function Missed(n: nat, acts: seq<Action>, i: nat): nat {
    if |acts| == 0 then 0
    else Missed(n, Front(acts), i) + |Logged(Silent(Run(n, Front(acts)), Last(acts), i))|
  }

  // From r to r' the silent values were applied and not logged, and some more applied and logged.
  ghost predicate Goes(r: Replica, silent: seq<DecidedValue>, r': Replica) {
    exists told: seq<DecidedValue> ::
      r'.ran == r.ran + silent + told && r'.logged == r.logged + Logged(told)
  }

  lemma {:induction false} ApplyToRuns(r: Replica, t: nat, notify: bool)
    ensures var r' := ApplyTo(r, t, notify);
            && r'.ran == r.ran + Passed(r, t)
            && r'.logged == (if notify then r.logged + Logged(Passed(r, t)) else r.logged)
    decreases End(r) - r.applied
  {
    if r.applied < t && CanApply(r) {
      var v := r.log[r.applied - r.logBase];
      var r1 := ApplyOne(r, notify);
      OneRuns(r, notify);
      ApplyToRuns(r1, t, notify);
      PassedOne(r, r1, t);
      ThenMore(r, v, r1, Passed(r1, t), ApplyTo(r1, t, notify), notify);
    } else {
      assert Passed(r, t) == [];
    }
  }

  lemma ThenMore(r: Replica, v: DecidedValue, r1: Replica, more: seq<DecidedValue>, r': Replica,
                 notify: bool)
    requires r1.ran == r.ran + [v] && r'.ran == r1.ran + more
    requires r1.logged == if notify then r.logged + Logged([v]) else r.logged
    requires r'.logged == if notify then r1.logged + Logged(more) else r1.logged
    ensures r'.ran == r.ran + ([v] + more)
    ensures r'.logged == if notify then r.logged + Logged([v] + more) else r.logged
  {
    Regroup(r.ran, [v], more);
    LoggedConcat([v], more);
    Regroup(r.logged, Logged([v]), Logged(more));
  }

  lemma Regroup(a: seq<DecidedValue>, b: seq<DecidedValue>, c: seq<DecidedValue>)
    ensures a + b + c == a + (b + c)
  {
  }

  lemma OneRuns(r: Replica, notify: bool)
    requires CanApply(r)
    ensures var v := r.log[r.applied - r.logBase];
            var r1 := ApplyOne(r, notify);
            && r1.ran == r.ran + [v]
            && r1.logged == (if notify then r.logged + Logged([v]) else r.logged)
            && r1.log == r.log && r1.logBase == r.logBase && r1.applied == r.applied + 1
  {
  }

  lemma PassedOne(r: Replica, r1: Replica, t: nat)
    requires CanApply(r) && r.applied < t
    requires r1.log == r.log && r1.logBase == r.logBase && r1.applied == r.applied + 1
    ensures Passed(r, t) == [r.log[r.applied - r.logBase]] + Passed(r1, t)
  {
  }

  lemma Idle(r: Replica, r': Replica)
    requires r'.ran == r.ran && r'.logged == r.logged
    ensures Goes(r, [], r')
  {
    assert r'.ran == r.ran + [] + [] && r'.logged == r.logged + Logged([]);
  }

  lemma ApplyDecidedGoes(r0: Replica, silent: seq<DecidedValue>, r: Replica, r': Replica)
    requires r.ran == r0.ran + silent && r.logged == r0.logged
    requires r'.ran == ApplyDecided(r).ran && r'.logged == ApplyDecided(r).logged
    ensures Goes(r0, silent, r')
  {
    var r1 := TryDecide(r);
    ApplyToRuns(r1, r1.decided, true);
    var told := Passed(r1, r1.decided);
    assert r'.ran == r0.ran + silent + told && r'.logged == r0.logged + Logged(told);
  }

  lemma LeaderGoes(r: Replica)
    requires |r.responses| > 0
    ensures Goes(r, Passed(r, BestOf(r.responses).slot), BecomeLeader(r).r)
  {
    var best := BestOf(r.responses);
    ApplyToRuns(r, best.slot, false);
    ApplyDecidedGoes(r, Passed(r, best.slot), Adopt(CatchUp(r, best.slot), best), BecomeLeader(r).r);
  }

  lemma ProposeGoes(r: Replica, m: Message)
    ensures Goes(r, [], HandlePropose(r, m).r)
  {
    if StalePropose(r, m) {
      Idle(r, HandlePropose(r, m).r);
    } else {
      var r1 := AcceptLog(r, m);
      ApplyDecidedGoes(r, [], r1.(decided := Max(r1.decided, m.decidedSlot)), HandlePropose(r, m).r);
    }
  }

  lemma PrepareGoes(r: Replica, m: Message)
    requires m.kind == Prepare
    ensures Goes(r, if Wins(r, m) then Passed(r, BestOf(r.responses + [m]).slot) else [],
                 HandlePrepare(r, m).r)
  {
    if Wins(r, m) {
      var r1 := r.(responses := r.responses + [m]);
      LeaderGoes(r1);
      SamePassed(r, r1, BestOf(r1.responses).slot);
      SameStart(r, r1, Passed(r1, BestOf(r1.responses).slot), BecomeLeader(r1).r);
    } else {
      Idle(r, HandlePrepare(r, m).r);
    }
  }

  lemma LeaderMessageGoes(r: Replica, m: Message)
    ensures Goes(r, [], ApplyDecided(RecordAck(r, m)))
  {
    ApplyDecidedGoes(r, [], RecordAck(r, m), ApplyDecided(RecordAck(r, m)));
  }

  // Handling a message, once any stepping down is done.
  lemma HandleGoes(r: Replica, m: Message, r': Replica)
    requires r' == Receive(r, m).r && StepDown(r, m) == r
    ensures Goes(r, if Wins(r, m) then Passed(r, BestOf(r.responses + [m]).slot) else [], r')
  {
    if m.round < r.probeRound || m.kind == Probe {
      Idle(r, r');
    } else if m.kind == Prepare {
      PrepareGoes(r, m);
    } else if r.index == r.leader {
      LeaderMessageGoes(r, m);
    } else if m.kind == Propose {
      ProposeGoes(r, m);
    } else {
      Idle(r, r');
    }
  }

  lemma ReceiveGoes(r0: Replica, m: Message)
    ensures var r := StepDown(r0, m);
            Goes(r0, if Wins(r, m) then Passed(r0, BestOf(r.responses + [m]).slot) else [],
                 Receive(r0, m).r)
  {
    var r := StepDown(r0, m);
    StepDownOnce(r0, m);
    HandleGoes(r, m, Receive(r0, m).r);
    if Wins(r, m) {
      SamePassed(r0, r, BestOf(r.responses + [m]).slot);
    }
    SameStart(r0, r, if Wins(r, m) then Passed(r, BestOf(r.responses + [m]).slot) else [],
              Receive(r0, m).r);
  }

  lemma StepDownOnce(r: Replica, m: Message)
    ensures var r1 := StepDown(r, m);
            && StepDown(r1, m) == r1 && Receive(r, m) == Receive(r1, m)
            && r1 == r.(probeRound := r1.probeRound, leader := r1.leader)
  {
  }

  lemma SamePassed(r: Replica, r1: Replica, t: nat)
    requires r1.log == r.log && r1.logBase == r.logBase && r1.applied == r.applied
    ensures Passed(r1, t) == Passed(r, t)
  {
  }

  lemma SameStart(r0: Replica, r: Replica, silent: seq<DecidedValue>, r': Replica)
    requires r.ran == r0.ran && r.logged == r0.logged && Goes(r, silent, r')
    ensures Goes(r0, silent, r')
  {
  }

  lemma TimeoutGoes(r: Replica, silent: bool)
    requires r.n > 1 || r.index == r.leader
    ensures r.n > 0 ==> Goes(r, [], Timeout(r, silent).r)
  {
    if r.n > 0 {
      if r.index == r.leader {
        ApplyDecidedGoes(r, [], r, Timeout(r, silent).r);
      } else {
        Idle(r, Timeout(r, silent).r);
      }
    }
  }

  lemma ClientGoes(r: Replica, id: nat, req: Request, now: int)
    ensures Goes(r, [], ClientPropose(r, id, req, now).r)
  {
    if r.index == r.leader {
      ApplyDecidedGoes(r, [], Append(r, Ticket(id, r.probeRound, ValueOf(req, now))),
                       ClientPropose(r, id, req, now).r);
    } else {
      Idle(r, r);
    }
  }

  // In every step, what a replica applies is logged, but for what it catches up on as a new leader.
  lemma StepGoes(s: Sys, a: Action, i: nat)
    requires i < |s.rs| && |Step(s, a).rs| == |s.rs|
    requires s.rs[i].n > 1 || s.rs[i].index == s.rs[i].leader
    ensures Goes(s.rs[i], Silent(s, a, i), Step(s, a).rs[i])
  {
    Idle(s.rs[i], s.rs[i]);
    match a
    case Deliver(k) =>
      if InFlight(s, k) && s.packets[k].dst == i {
        ReceiveGoes(s.rs[i], s.packets[k].msg);
      }
    case Lose(_) =>
    case Tick(x, silent) =>
      if x == i && s.rs[i].n > 0 {
        TimeoutGoes(s.rs[i], silent);
      }
    case Client(x, id, req, now) =>
      if x == i {
        ClientGoes(s.rs[i], id, req, now);
      }
  }

  // ---- over a run ----

  lemma {:induction false} NoLines(vs: seq<DecidedValue>)
    ensures |Logged(vs)| == 0 <==> OnlyLists(vs)
  {
    if |vs| == 0 {
    } else {
      NoLines(Front(vs));
      assert vs == Front(vs) + [Last(vs)];
    }
  }

  lemma {:induction false} MissedIs(n: nat, acts: seq<Action>, i: nat)
    ensures Missed(n, acts, i) == 0 <==> NothingMissed(n, acts, i)
    decreases |acts|
  {
    if |acts| == 0 {
    } else {
      MissedIs(n, Front(acts), i);
      NoLines(Silent(Run(n, Front(acts)), Last(acts), i));
    }
  }

  // The log misses that many lines of what was applied, and none of the others.
  predicate Lacks(r: Replica, missed: nat) {
    && |Logged(r.ran)| == |r.logged| + missed
    && (missed == 0 ==> r.logged == Logged(r.ran))
  }

  lemma LacksMore(r: Replica, silent: seq<DecidedValue>, r': Replica, missed: nat)
    requires Lacks(r, missed) && Goes(r, silent, r')
    ensures Lacks(r', missed + |Logged(silent)|)
  {
    var told: seq<DecidedValue> :|
      r'.ran == r.ran + silent + told && r'.logged == r.logged + Logged(told);
    LoggedConcat(r.ran + silent, told);
    LoggedConcat(r.ran, silent);
  }

  lemma Shaped(n: nat, acts: seq<Action>, i: nat)
    requires i < n
    ensures |Run(n, acts).rs| == n
    ensures Run(n, acts).rs[i].n > 1 || Run(n, acts).rs[i].index == Run(n, acts).rs[i].leader
  {
    Agreement.RunSize(n, acts);
    var h := Agreement.RepAlone(n, acts, i);
  }

  lemma {:induction false} RunLacks(n: nat, acts: seq<Action>, i: nat)
    requires i < n
    ensures Lacks(Agreement.ReplicaAt(n, acts, i), Missed(n, acts, i))
    decreases |acts|
  {
    if |acts| == 0 {
    } else {
      RunLacks(n, Front(acts), i);
      Shaped(n, Front(acts), i);
      Agreement.RunSize(n, acts);
      StepGoes(Run(n, Front(acts)), Last(acts), i);
      LacksMore(Agreement.ReplicaAt(n, Front(acts), i), Silent(Run(n, Front(acts)), Last(acts), i),
                Agreement.ReplicaAt(n, acts, i), Missed(n, Front(acts), i));
    }
  }

  // A replica's log has exactly the lines of the committed values it has applied, if and only if
  // no catch-up of its own passed over anything but task lists. Otherwise it is shorter by what
  // those catch-ups passed over.
  lemma LogIsComplete(n: nat, acts: seq<Action>, i: nat) returns (c: seq<DecidedValue>)
    requires i < n
    ensures Agreement.AllAt(Run(n, acts), c)
    ensures var r := Agreement.ReplicaAt(n, acts, i);
            && r.applied <= |c|
            && (r.logged == Logged(c[..r.applied]) <==> NothingMissed(n, acts, i))
            && |r.logged| + Missed(n, acts, i) == |Logged(c[..r.applied])|
  {
    var cs := Agreement.OneCommittedSequence(n, acts);
    c := Last(cs);
    assert acts[..|acts|] == acts;
    Agreement.RunSize(n, acts);
    assert Agreement.At(Agreement.ReplicaAt(n, acts, i), c);
    RunLacks(n, acts, i);
    MissedIs(n, acts, i);
  }

  // Then, reading the log back and replaying it gives the replica's database.
  lemma OwnLogReplays(n: nat, acts: seq<Action>, i: nat, lines: seq<Json.Json>)
    requires i < n && NothingMissed(n, acts, i)
    requires DecisionLog.WrittenFor(lines, Agreement.ReplicaAt(n, acts, i).logged)
    requires Json.InI64(Agreement.ReplicaAt(n, acts, i).applied)
    requires forall v | v in Agreement.ReplicaAt(n, acts, i).ran :: Transport.FitsValue(v)
    ensures Json.All(lines, DecisionLog.ReadLine).Ok?
    ensures DecisionLog.StateAfter(Json.All(lines, DecisionLog.ReadLine).value)
            == Agreement.ReplicaAt(n, acts, i).db
  {
    var r := Agreement.ReplicaAt(n, acts, i);
    var cs := Agreement.OneCommittedSequence(n, acts);
    assert acts[..|acts|] == acts;
    Agreement.RunSize(n, acts);
    assert Agreement.At(r, Last(cs));
    RunLacks(n, acts, i);
    MissedIs(n, acts, i);
    DecisionLog.ReplayedLogIsDb(r.ran, lines);
  }
}

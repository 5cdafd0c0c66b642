/** No replica sits on a decision: whatever it knows to be decided, it has applied. */
module Promptness {
  import opened Common
  import opened TaskTypes
  import Quorums
  import opened ReplicaSpec
  import opened Cluster
  import opened History
  import opened LocalSteps
  import opened Safety
  import Agreement

  predicate Prompt(r: Replica) { r.applied == r.decided }

  lemma {:induction false} ApplyToReaches(r: Replica, t: nat, notify: bool)
    requires r.logBase <= r.applied
    ensures Min(t, End(r)) <= ApplyTo(r, t, notify).applied
    decreases End(r) - r.applied
  {
    if t <= r.applied || !CanApply(r) {
    } else {
      ApplyToReaches(ApplyOne(r, notify), t, notify);
    }
  }

  // Deciding and applying leaves nothing over, provided the cursors come out in order.
  lemma ApplyDecidedIsPrompt(r: Replica, r': Replica)
    requires ApplyDecided(r).applied == r'.applied && ApplyDecided(r).decided == r'.decided
    requires End(ApplyDecided(r)) == End(r') && ApplyDecided(r).logBase <= r'.logBase
    requires CursorsOk(r')
    ensures Prompt(r')
  {
    var r1 := TryDecide(r);
    var r2 := ApplyTo(r1, r1.decided, true);
    ApplyToFrame(r1, r1.decided, true);
    assert r2.logBase <= ApplyDecided(r).logBase;
    if r1.logBase <= r1.applied {
      ApplyToReaches(r1, r1.decided, true);
    }
  }

  lemma LeaderIsPrompt(r: Replica)
    requires CursorsOk(BecomeLeader(r).r) && |r.responses| > 0
    ensures Prompt(BecomeLeader(r).r)
  {
    var best := BestOf(r.responses);
    ApplyDecidedIsPrompt(Adopt(CatchUp(r, best.slot), best), BecomeLeader(r).r);
  }

  lemma ProposeIsPrompt(r: Replica, m: Message)
    requires Prompt(r) && CursorsOk(HandlePropose(r, m).r)
    ensures Prompt(HandlePropose(r, m).r)
  {
    if !StalePropose(r, m) {
      var r1 := AcceptLog(r, m);
      ApplyDecidedIsPrompt(r1.(decided := Max(r1.decided, m.decidedSlot)), HandlePropose(r, m).r);
    }
  }

  lemma ReceiveIsPrompt(r0: Replica, m: Message)
    requires Prompt(r0) && CursorsOk(Receive(r0, m).r)
    ensures Prompt(Receive(r0, m).r)
  {
    var r := StepDown(r0, m);
    assert Prompt(r);
    if m.round < r.probeRound || m.kind == Probe {
    } else if m.kind == Prepare {
      var r1 := r.(responses := r.responses + [m]);
      if Receive(r0, m).r == BecomeLeader(r1).r {
        LeaderIsPrompt(r1);
      }
    } else if r.index == r.leader {
      ApplyDecidedIsPrompt(RecordAck(r, m), Receive(r0, m).r);
    } else if m.kind == Propose {
      ProposeIsPrompt(r, m);
    }
  }

  lemma TimeoutIsPrompt(r: Replica, silent: bool)
    requires r.n > 0 && Prompt(r) && CursorsOk(Timeout(r, silent).r)
    ensures Prompt(Timeout(r, silent).r)
  {
    if r.index == r.leader {
      ApplyDecidedIsPrompt(r, Timeout(r, silent).r);
    } else if silent && 1 >= Quorums.Quorum(r.n) {
      LeaderIsPrompt(Candidate(r));
    }
  }

  lemma ClientIsPrompt(r: Replica, id: nat, req: Request, now: int)
    requires Prompt(r) && CursorsOk(ClientPropose(r, id, req, now).r)
    ensures Prompt(ClientPropose(r, id, req, now).r)
  {
    if r.index == r.leader {
      ApplyDecidedIsPrompt(Append(r, Ticket(id, r.probeRound, ValueOf(req, now))),
                           ClientPropose(r, id, req, now).r);
    }
  }

  lemma StepIsPrompt(s: Sys, a: Action, i: nat)
    requires i < |s.rs| && |Step(s, a).rs| == |s.rs|
    requires Prompt(s.rs[i]) && CursorsOk(Step(s, a).rs[i])
    ensures Prompt(Step(s, a).rs[i])
  {
    match a
    case Deliver(k) =>
      if InFlight(s, k) && s.packets[k].dst == i {
        ReceiveIsPrompt(s.rs[i], s.packets[k].msg);
      }
    case Lose(_) =>
    case Tick(x, silent) =>
      if x == i && s.rs[i].n > 0 {
        TimeoutIsPrompt(s.rs[i], silent);
      }
    case Client(x, id, req, now) =>
      if x == i {
        ClientIsPrompt(s.rs[i], id, req, now);
      }
  }

  // In every state of every run, each replica has applied exactly what it knows to be decided.
  lemma {:induction false} NothingLeftUnapplied(n: nat, acts: seq<Action>, i: nat)
    requires i < n
    ensures Agreement.ReplicaAt(n, acts, i).applied == Agreement.ReplicaAt(n, acts, i).decided
    decreases |acts|
  {
    if |acts| == 0 {
    } else {
      NothingLeftUnapplied(n, Front(acts), i);
      Agreement.RunSize(n, Front(acts));
      var h := Agreement.ReplicaOk(n, acts, i);
      StepIsPrompt(Run(n, Front(acts)), Last(acts), i);
    }
  }
}

/** What becomes of a waiting client in each step and over a run: it is answered when its slot is
    applied, unless a new leader's catch-up applies it, which answers nobody, or another client is
    accepted at that very slot before. Those are the only two ways to be left without an answer once
    the slot is applied; LostClients shows that both happen. */
module Waiting {
  import opened Common
  import opened TaskTypes
  import opened Quorums
  import opened ReplicaSpec
  import opened Cluster
  import opened History
  import opened Safety
  import LocalSteps
  import Delivery
  import Agreement

  // ---- the clients of a replica ----

  // What of a replica concerns its clients.
  datatype Desk = Desk(applied: nat, pending: map<nat, Ticket>, replies: seq<Reply>)

  function DeskOf(r: Replica): Desk { Desk(r.applied, r.pending, r.replies) }

  predicate Answered(replies: seq<Reply>, k: nat, t: Ticket) {
    exists p | p in replies :: p.ticket == t && p.slot == k
  }

  predicate Waits(r: Replica, k: nat, t: Ticket) { k in r.pending && r.pending[k] == t }

  // The slots from d.applied on were applied up to d'.applied: exactly the clients waiting on those
  // slots were answered, and they wait no longer.
  ghost predicate Serves(d: Desk, d': Desk) {
    && d.applied <= d'.applied
    && (forall k :: k in d'.pending <==> k in d.pending && !(d.applied <= k < d'.applied))
    && (forall k | k in d'.pending :: d'.pending[k] == d.pending[k])
    && (forall k | k in d.pending && d.applied <= k < d'.applied ::
          Answered(d'.replies, k, d.pending[k]))
    && (forall p | p in d.replies :: p in d'.replies)
    && (forall p | p in d'.replies :: p in d.replies || NewReply(d, d', p))
  }

  predicate NewReply(d: Desk, d': Desk, p: Reply) {
    d.applied <= p.slot < d'.applied && p.slot in d.pending && p.ticket == d.pending[p.slot]
  }

  // The desk once a new client has taken the next slot and a catch-up has passed the slots below over.
  function Turned(r: Replica, taker: Option<Ticket>, over: nat): Desk {
    Desk(Max(r.applied, over),
         if taker.Some? then r.pending[r.nextSlot := taker.value] else r.pending,
         r.replies)
  }

  lemma ServesNone(d: Desk)
    ensures Serves(d, d)
  {
  }

  // ---- applying ----

  lemma OneServed(r: Replica)
    requires CanApply(r)
    ensures Serves(DeskOf(r), DeskOf(ApplyOne(r, true)))
  {
    var r1 := ApplyOne(r, true);
    if r.applied in r.pending {
      assert Last(r1.replies) in r1.replies;
      assert r1.replies == r.replies + [Last(r1.replies)];
    }
  }

  lemma ServedTwice(a: Desk, b: Desk, c: Desk)
    requires Serves(a, b) && Serves(b, c)
    ensures Serves(a, c)
  {
    forall k | k in a.pending && a.applied <= k < c.applied
      ensures Answered(c.replies, k, a.pending[k]) {
      if k < b.applied {
        var p :| p in b.replies && p.ticket == a.pending[k] && p.slot == k;
        assert p in c.replies;
      } else {
        assert Answered(c.replies, k, b.pending[k]);
      }
    }
  }

  lemma {:induction false} ApplyToServes(r: Replica, t: nat)
    ensures Serves(DeskOf(r), DeskOf(ApplyTo(r, t, true)))
    decreases End(r) - r.applied
  {
    if t <= r.applied || !CanApply(r) {
      ServesNone(DeskOf(r));
    } else {
      OneServed(r);
      ApplyToServes(ApplyOne(r, true), t);
      ServedTwice(DeskOf(r), DeskOf(ApplyOne(r, true)), DeskOf(ApplyTo(r, t, true)));
    }
  }

  lemma {:induction false} SilentKeeps(r: Replica, t: nat)
    ensures var r' := ApplyTo(r, t, false);
            && r'.pending == r.pending && r'.replies == r.replies
            && r.applied <= r'.applied <= Max(r.applied, t)
    decreases End(r) - r.applied
  {
    if t <= r.applied || !CanApply(r) {
      assert ApplyTo(r, t, false) == r;
    } else {
      SilentKeeps(ApplyOne(r, false), t);
    }
  }

  // Catching up passes its slots over and answers nobody.
  lemma CatchUpTurns(r: Replica, t: nat)
    ensures DeskOf(CatchUp(r, t)) == Turned(r, None, t)
  {
    SilentKeeps(r, t);
  }

  lemma ApplyDecidedServes(r: Replica)
    ensures Serves(DeskOf(r), DeskOf(ApplyDecided(r)))
  {
    var r1 := TryDecide(r);
    ApplyToServes(r1, r1.decided);
  }

  // ---- the handlers ----

  lemma LeaderServes(r: Replica)
    requires |r.responses| > 0
    ensures Serves(Turned(r, None, BestOf(r.responses).slot), DeskOf(BecomeLeader(r).r))
  {
    var best := BestOf(r.responses);
    CatchUpTurns(r, best.slot);
    ApplyDecidedServes(Adopt(CatchUp(r, best.slot), best));
  }

  lemma ProposeServes(r: Replica, m: Message)
    requires m.slot <= End(r)
    ensures Serves(DeskOf(r), DeskOf(HandlePropose(r, m).r))
    ensures HandlePropose(r, m).r.leader == m.sender
    ensures HandlePropose(r, m).r.probeRound == r.probeRound
  {
    if StalePropose(r, m) {
      ServesNone(DeskOf(r));
    } else {
      var r1 := AcceptLog(r, m);
      var r2 := r1.(decided := Max(r1.decided, m.decidedSlot));
      AcceptedClients(r, m);
      ApplyDecidedServes(r2);
      ApplyDecidedLeads(r2);
    }
  }

  lemma AcceptedClients(r: Replica, m: Message)
    requires m.slot <= End(r)
    ensures DeskOf(AcceptLog(r, m)) == DeskOf(r)
    ensures AcceptLog(r, m).leader == m.sender && AcceptLog(r, m).probeRound == r.probeRound
  {
  }

  lemma ApplyDecidedLeads(r: Replica)
    ensures ApplyDecided(r).leader == r.leader && ApplyDecided(r).probeRound == r.probeRound
    ensures ApplyDecided(r).index == r.index
  {
    LocalSteps.ApplyToFrame(TryDecide(r), TryDecide(r).decided, true);
  }

  // A replica that leads after a step led before it, in the same round; rounds only go up.
  predicate LedBefore(r: Replica, r': Replica) {
    && r.probeRound <= r'.probeRound
    && (r'.leader == r.index ==> r.leader == r.index && r'.probeRound == r.probeRound)
  }

  lemma ReceiveServes(r0: Replica, m: Message)
    requires m.sender != r0.index && !Wins(StepDown(r0, m), m)
    requires m.kind == Propose && r0.probeRound <= m.round ==> m.slot <= End(r0)
    ensures Serves(DeskOf(r0), DeskOf(Receive(r0, m).r)) && LedBefore(r0, Receive(r0, m).r)
  {
    var r := StepDown(r0, m);
    assert LedBefore(r0, r) && DeskOf(r0) == DeskOf(r);
    if m.round < r.probeRound || m.kind == Probe || m.kind == Prepare {
      ServesNone(DeskOf(r));
    } else if r.index == r.leader {
      ApplyDecidedServes(RecordAck(r, m));
      ApplyDecidedLeads(RecordAck(r, m));
    } else if m.kind == Propose {
      ProposeServes(r, m);
    } else {
      ServesNone(DeskOf(r));
    }
  }

  lemma WinIs(r0: Replica, m: Message)
    requires Wins(StepDown(r0, m), m)
    ensures var r := StepDown(r0, m);
            Receive(r0, m) == BecomeLeader(r.(responses := r.responses + [m]))
  {
  }

  lemma WinServes(r0: Replica, m: Message)
    requires Wins(StepDown(r0, m), m)
    ensures Serves(Turned(r0, None, BestOf(StepDown(r0, m).responses + [m]).slot),
                   DeskOf(Receive(r0, m).r))
    ensures r0.probeRound <= Receive(r0, m).r.probeRound
  {
    var r := StepDown(r0, m);
    var r1 := r.(responses := r.responses + [m]);
    WinIs(r0, m);
    LeaderServes(r1);
    Delivery.BecomeLeaderShape(r1);
  }

  lemma TimeoutServes(r: Replica, silent: bool)
    requires r.n > 0 && (r.n > 1 || r.index == r.leader)
    ensures Serves(DeskOf(r), DeskOf(Timeout(r, silent).r)) && LedBefore(r, Timeout(r, silent).r)
  {
    if r.index == r.leader {
      ApplyDecidedServes(r);
      ApplyDecidedLeads(r);
    } else {
      ServesNone(DeskOf(r));
    }
  }

  lemma ClientServes(r: Replica, id: nat, req: Request, now: int)
    requires r.index == r.leader
    ensures var r' := ClientPropose(r, id, req, now).r;
            && Serves(Turned(r, Some(Ticket(id, r.probeRound, ValueOf(req, now))), 0), DeskOf(r'))
            && LedBefore(r, r')
  {
    var r1 := Append(r, Ticket(id, r.probeRound, ValueOf(req, now)));
    ApplyDecidedServes(r1);
    ApplyDecidedLeads(r1);
  }

  // ---- a step of a run ----

  predicate MakesLeader(s: Sys, a: Action, i: nat) {
    Winner(s, a).Some? && Winner(s, a).value.i == i
  }

  // The client a step accepts at replica i, and the slot below which it catches up there.
  function Taker(s: Sys, a: Action, i: nat): Option<Ticket> {
    if a.Client? && a.i == i then Accepted(s, a) else None
  }

  function Over(s: Sys, a: Action, i: nat): nat {
    if MakesLeader(s, a, i) then BestOf(Winner(s, a).value.responses).slot else 0
  }

  ghost predicate Moves(s: Sys, a: Action, i: nat, r: Replica, r': Replica) {
    && Serves(Turned(r, Taker(s, a, i), Over(s, a, i)), DeskOf(r'))
    && r.probeRound <= r'.probeRound
    && (!MakesLeader(s, a, i) ==> LedBefore(r, r'))
  }

  lemma Shaped(n: nat, acts: seq<Action>, i: nat)
    requires i < n
    ensures var r := Agreement.ReplicaAt(n, acts, i);
            && r.index == i && r.n == n && (n > 1 || r.leader == i)
            && (r.leader == i ==> r.applied <= r.nextSlot)
  {
    var h := Agreement.RepAlone(n, acts, i);
  }

  // What every step does for the clients of every replica.
  lemma StepServes(n: nat, acts: seq<Action>, a: Action, i: nat)
    requires i < n
    ensures Moves(Run(n, acts), a, i, Agreement.ReplicaAt(n, acts, i),
                  Agreement.ReplicaAt(n, acts + [a], i))
  {
    Agreement.RunSize(n, acts);
    Agreement.RunSize(n, acts + [a]);
    assert Front(acts + [a]) == acts;
    match a
    case Deliver(k) => DeliverStep(n, acts, k, i);
    case Lose(_) => IdleMoves(Run(n, acts), a, i, Run(n, acts).rs[i]);
    case Tick(x, silent) => TickStep(n, acts, x, silent, i);
    case Client(x, id, req, now) => ClientStep(n, acts, x, id, req, now, i);
  }

  lemma IdleMoves(s: Sys, a: Action, i: nat, r: Replica)
    requires Taker(s, a, i).None? && !MakesLeader(s, a, i)
    ensures Moves(s, a, i, r, r)
  {
    ServesNone(DeskOf(r));
  }

  lemma DeliveryMoves(s: Sys, k: nat, i: nat)
    requires InFlight(s, k) && s.packets[k].dst == i < |s.rs|
    requires var r := s.rs[i];
             var m := s.packets[k].msg;
             && m.sender != r.index
             && (m.kind == Propose && r.probeRound <= m.round ==> m.slot <= End(r))
    ensures Moves(s, Deliver(k), i, s.rs[i], Receive(s.rs[i], s.packets[k].msg).r)
  {
    var m := s.packets[k].msg;
    if Wins(StepDown(s.rs[i], m), m) {
      WinServes(s.rs[i], m);
    } else {
      ReceiveServes(s.rs[i], m);
    }
  }

  lemma DeliverStep(n: nat, acts: seq<Action>, k: nat, i: nat)
    requires i < n == |Run(n, acts).rs| && |Step(Run(n, acts), Deliver(k)).rs| == n
    ensures Moves(Run(n, acts), Deliver(k), i, Run(n, acts).rs[i],
                  Step(Run(n, acts), Deliver(k)).rs[i])
  {
    var s := Run(n, acts);
    if InFlight(s, k) && s.packets[k].dst == i {
      var m := s.packets[k].msg;
      Agreement.DeliveriesAreLegal(n, acts, k);
      Shaped(n, acts, i);
      if m.kind == Propose {
        Agreement.NoGap(n, acts, k);
      }
      DeliveryMoves(s, k, i);
    } else {
      IdleMoves(s, Deliver(k), i, s.rs[i]);
    }
  }

  lemma TimeoutMoves(s: Sys, i: nat, silent: bool, r: Replica)
    requires r.n > 0 && (r.n > 1 || r.index == r.leader)
    ensures Moves(s, Tick(i, silent), i, r, Timeout(r, silent).r)
  {
    TimeoutServes(r, silent);
  }

  lemma TickStep(n: nat, acts: seq<Action>, x: nat, silent: bool, i: nat)
    requires i < n == |Run(n, acts).rs| && |Step(Run(n, acts), Tick(x, silent)).rs| == n
    ensures Moves(Run(n, acts), Tick(x, silent), i, Run(n, acts).rs[i],
                  Step(Run(n, acts), Tick(x, silent)).rs[i])
  {
    Shaped(n, acts, i);
    if x == i {
      TimeoutMoves(Run(n, acts), i, silent, Run(n, acts).rs[i]);
    } else {
      IdleMoves(Run(n, acts), Tick(x, silent), i, Run(n, acts).rs[i]);
    }
  }

  lemma ClientStep(n: nat, acts: seq<Action>, x: nat, id: nat, req: Request, now: int, i: nat)
    requires i < n == |Run(n, acts).rs| && |Step(Run(n, acts), Client(x, id, req, now)).rs| == n
    ensures Moves(Run(n, acts), Client(x, id, req, now), i, Run(n, acts).rs[i],
                  Step(Run(n, acts), Client(x, id, req, now)).rs[i])
  {
    Shaped(n, acts, i);
    if x == i && Run(n, acts).rs[i].leader == i {
      ClientServes(Run(n, acts).rs[i], id, req, now);
    } else {
      IdleMoves(Run(n, acts), Client(x, id, req, now), i, Run(n, acts).rs[i]);
    }
  }

  // ---- what always holds of the clients ----

  ghost predicate ClientsOk(r: Replica) {
    && (forall p | p in r.replies :: p.slot < r.applied && p.slot !in r.pending)
    && (forall k | k in r.pending :: r.pending[k].round <= r.probeRound)
    && (r.leader == r.index ==>
          forall k | k in r.pending && r.pending[k].round == r.probeRound :: r.applied <= k)
  }

  // A replica about to lead leads nothing now, and no client waits on the round it will lead.
  lemma NoneWaitsYet(n: nat, acts: seq<Action>, a: Action, i: nat)
    requires i < n && MakesLeader(Run(n, acts), a, i)
    ensures var r := Agreement.ReplicaAt(n, acts, i);
            && r.leader != i
            && NoneFrom(r, Agreement.ReplicaAt(n, acts + [a], i).probeRound)
  {
    var h := RunOk(n, acts);
    var h' := StepOk(Run(n, acts), h, a);
    Agreement.RunSize(n, acts);
    assert Front(acts + [a]) == acts;
    assert RepOk(n, i, Run(n, acts).rs[i], h);
    WinnerRound(Run(n, acts), a, i);
  }

  predicate NoneFrom(r: Replica, round: nat) {
    forall k | k in r.pending :: r.pending[k].round != round
  }

  lemma WinnerRound(s: Sys, a: Action, i: nat)
    requires i < |s.rs| && MakesLeader(s, a, i)
    ensures |Step(s, a).rs| == |s.rs|
    ensures Step(s, a).rs[i].probeRound == Winner(s, a).value.round
  {
    var m := s.packets[a.k].msg;
    var r := StepDown(s.rs[i], m);
    WinIs(s.rs[i], m);
    Delivery.BecomeLeaderShape(r.(responses := r.responses + [m]));
  }

  // A client is accepted by a leader, for its present round.
  lemma TakerIs(n: nat, acts: seq<Action>, a: Action, i: nat)
    requires i < n
    ensures var s := Run(n, acts);
            var r := Agreement.ReplicaAt(n, acts, i);
            Taker(s, a, i).Some? ==>
              && r.leader == i && r.applied <= r.nextSlot && !MakesLeader(s, a, i)
              && Taker(s, a, i).value.round == r.probeRound
  {
    Shaped(n, acts, i);
  }

  lemma WinnerClients(s: Sys, a: Action, i: nat, r: Replica, r': Replica)
    requires ClientsOk(r) && Moves(s, a, i, r, r') && MakesLeader(s, a, i) && Taker(s, a, i).None?
    requires NoneFrom(r, r'.probeRound)
    ensures ClientsOk(r')
  {
  }

  lemma OtherClients(s: Sys, a: Action, i: nat, r: Replica, r': Replica)
    requires ClientsOk(r) && Moves(s, a, i, r, r') && !MakesLeader(s, a, i) && r'.index == r.index
    requires Taker(s, a, i).Some? ==>
               r.applied <= r.nextSlot && Taker(s, a, i).value.round == r.probeRound
    ensures ClientsOk(r')
  {
  }

  lemma {:induction false} RunClients(n: nat, acts: seq<Action>, i: nat)
    requires i < n
    ensures ClientsOk(Agreement.ReplicaAt(n, acts, i))
    decreases |acts|
  {
    if |acts| == 0 {
    } else {
      var fs, a := Front(acts), Last(acts);
      assert fs + [a] == acts;
      RunClients(n, fs, i);
      StepServes(n, fs, a, i);
      Shaped(n, fs, i);
      Shaped(n, acts, i);
      TakerIs(n, fs, a, i);
      if MakesLeader(Run(n, fs), a, i) {
        NoneWaitsYet(n, fs, a, i);
        WinnerClients(Run(n, fs), a, i, Agreement.ReplicaAt(n, fs, i), Agreement.ReplicaAt(n, acts, i));
      } else {
        OtherClients(Run(n, fs), a, i, Agreement.ReplicaAt(n, fs, i), Agreement.ReplicaAt(n, acts, i));
      }
    }
  }

  // A client of the present leadership.
  predicate Ours(r: Replica, k: nat) {
    r.leader == r.index && k in r.pending && r.pending[k].round == r.probeRound
  }

  // While a replica leads, each client of this leadership waits for its own slot, not yet applied,
  // below the next one to be handed out, with its value in the log there.
  lemma LeaderKeepsTickets(n: nat, acts: seq<Action>, i: nat, k: nat)
    requires i < n && Ours(Agreement.ReplicaAt(n, acts, i), k)
    ensures var r := Agreement.ReplicaAt(n, acts, i);
            && r.applied <= k < r.nextSlot == End(r)
            && r.logBase <= k
            && r.log[k - r.logBase] == r.pending[k].value
  {
    var h := Agreement.RepAlone(n, acts, i);
    RunClients(n, acts, i);
    Agreement.TicketKept(n, i, Agreement.ReplicaAt(n, acts, i), h, k);
  }

  // ---- the fate of a client in one step ----

  // Another client is accepted at slot k of replica i.
  predicate Takes(s: Sys, a: Action, i: nat, k: nat)
    requires i < |s.rs|
  {
    Taker(s, a, i).Some? && s.rs[i].nextSlot == k
  }

  // Replica i is made leader on top of a log whose base is beyond slot k: the guard of its catch-up.
  predicate PassesOver(s: Sys, a: Action, i: nat, k: nat) {
    MakesLeader(s, a, i) && k < BestOf(Winner(s, a).value.responses).slot
  }

  // In every step, a waiting client is answered if and only if its slot is applied in that step, not
  // by a catch-up and not for another client that has just taken the slot; and if it is not answered,
  // it waits on, unless its slot was taken.
  lemma FateOfClient(n: nat, acts: seq<Action>, a: Action, i: nat, k: nat)
    requires i < n && k in Agreement.ReplicaAt(n, acts, i).pending
    ensures |Run(n, acts).rs| == n
    ensures var s := Run(n, acts);
            var r := Agreement.ReplicaAt(n, acts, i);
            var r' := Agreement.ReplicaAt(n, acts + [a], i);
            var t := r.pending[k];
            && !Answered(r.replies, k, t)
            && (Answered(r'.replies, k, t) <==>
                r.applied <= k < r'.applied && !PassesOver(s, a, i, k) && !Takes(s, a, i, k))
            && (Waits(r', k, t) <==> !Answered(r'.replies, k, t) && !Takes(s, a, i, k))
  {
    Agreement.RunSize(n, acts);
    RunClients(n, acts, i);
    StepServes(n, acts, a, i);
    TakerIs(n, acts, a, i);
    Shaped(n, acts, i);
    var s := Run(n, acts);
    if Takes(s, a, i, k) {
      NotOurs(n, acts, i, k);
    }
    StepFate(s, a, i, s.rs[i], Agreement.ReplicaAt(n, acts + [a], i), k);
  }

  // A client waiting at the next slot is left over from an older leadership.
  lemma NotOurs(n: nat, acts: seq<Action>, i: nat, k: nat)
    requires i < n
    requires var r := Agreement.ReplicaAt(n, acts, i);
             r.leader == i && r.nextSlot == k && k in r.pending
    ensures var r := Agreement.ReplicaAt(n, acts, i); r.pending[k].round < r.probeRound
  {
    Shaped(n, acts, i);
    RunClients(n, acts, i);
    if Ours(Agreement.ReplicaAt(n, acts, i), k) {
      LeaderKeepsTickets(n, acts, i, k);
    }
  }

  lemma StepFate(s: Sys, a: Action, i: nat, r: Replica, r': Replica, k: nat)
    requires i < |s.rs| && r == s.rs[i] && Moves(s, a, i, r, r') && ClientsOk(r) && k in r.pending
    requires Taker(s, a, i).Some? ==>
               r.applied <= r.nextSlot && !MakesLeader(s, a, i)
               && Taker(s, a, i).value.round == r.probeRound
    requires Takes(s, a, i, k) ==> r.pending[k].round < r.probeRound
    ensures var t := r.pending[k];
            && !Answered(r.replies, k, t)
            && (Answered(r'.replies, k, t) <==>
                r.applied <= k < r'.applied && !PassesOver(s, a, i, k) && !Takes(s, a, i, k))
            && (Waits(r', k, t) <==> !Answered(r'.replies, k, t) && !Takes(s, a, i, k))
  {
    var t := r.pending[k];
    var d := Turned(r, Taker(s, a, i), Over(s, a, i));
    if !Takes(s, a, i, k) {
      assert k in d.pending && d.pending[k] == t;
    }
  }

  // So the step that applies the slot of a client of the present leadership answers it, whatever
  // else that step does.
  lemma AppliedIsAnswered(n: nat, acts: seq<Action>, a: Action, i: nat, k: nat)
    requires i < n && Ours(Agreement.ReplicaAt(n, acts, i), k)
    requires k < Agreement.ReplicaAt(n, acts + [a], i).applied
    ensures Answered(Agreement.ReplicaAt(n, acts + [a], i).replies, k,
                     Agreement.ReplicaAt(n, acts, i).pending[k])
  {
    LeaderKeepsTickets(n, acts, i, k);
    Shaped(n, acts, i);
    FateOfClient(n, acts, a, i, k);
    if MakesLeader(Run(n, acts), a, i) {
      NoneWaitsYet(n, acts, a, i);
    }
  }

  // ---- the fate of a client over a run ----

  // Later on in the run, another client was accepted at slot k.
  predicate Taken(n: nat, acts: seq<Action>, more: seq<Action>, i: nat, k: nat)
    requires i < n
  {
    Agreement.RunSize(n, acts + if |more| > 0 then Front(more) else []);
    |more| > 0
    && (Taken(n, acts, Front(more), i, k) || Takes(Run(n, acts + Front(more)), Last(more), i, k))
  }

  // Later on in the run, a catch-up applied slot k.
  predicate PassedOver(n: nat, acts: seq<Action>, more: seq<Action>, i: nat, k: nat)
    requires i < n
  {
    |more| > 0
    && (PassedOver(n, acts, Front(more), i, k)
        || (Agreement.ReplicaAt(n, acts + Front(more), i).applied <= k
            && PassesOver(Run(n, acts + Front(more)), Last(more), i, k)))
  }

  // A client that left without an answer, or with one, does not come back.
  lemma GoneStays(n: nat, acts: seq<Action>, a: Action, i: nat, k: nat, t: Ticket)
    requires i < n
    requires var r := Agreement.ReplicaAt(n, acts, i);
             !Waits(r, k, t) && (Answered(r.replies, k, t) || t.round < r.probeRound)
    ensures var r := Agreement.ReplicaAt(n, acts, i);
            var r' := Agreement.ReplicaAt(n, acts + [a], i);
            && !Waits(r', k, t) && (Answered(r'.replies, k, t) <==> Answered(r.replies, k, t))
            && r.probeRound <= r'.probeRound && r.applied <= r'.applied
  {
    Agreement.RunSize(n, acts);
    RunClients(n, acts, i);
    StepServes(n, acts, a, i);
    TakerIs(n, acts, a, i);
    StepGone(Run(n, acts), a, i, Agreement.ReplicaAt(n, acts, i),
             Agreement.ReplicaAt(n, acts + [a], i), k, t);
  }

  lemma {:induction false} GoneForever(n: nat, acts: seq<Action>, more: seq<Action>, i: nat, k: nat,
                                       t: Ticket)
    requires i < n
    requires var r := Agreement.ReplicaAt(n, acts, i);
             !Waits(r, k, t) && !Answered(r.replies, k, t) && t.round < r.probeRound
    ensures var r' := Agreement.ReplicaAt(n, acts + more, i);
            !Waits(r', k, t) && !Answered(r'.replies, k, t) && t.round < r'.probeRound
    decreases |more|
  {
    if |more| == 0 {
      assert acts + more == acts;
    } else {
      GoneForever(n, acts, Front(more), i, k, t);
      GoneStays(n, acts + Front(more), Last(more), i, k, t);
      assert acts + Front(more) + [Last(more)] == acts + more;
    }
  }

  lemma StepGone(s: Sys, a: Action, i: nat, r: Replica, r': Replica, k: nat, t: Ticket)
    requires Moves(s, a, i, r, r') && ClientsOk(r)
    requires Taker(s, a, i).Some? ==>
               r.applied <= r.nextSlot && Taker(s, a, i).value.round == r.probeRound
    requires !Waits(r, k, t) && (Answered(r.replies, k, t) || t.round < r.probeRound)
    ensures !Waits(r', k, t) && (Answered(r'.replies, k, t) <==> Answered(r.replies, k, t))
    ensures r.probeRound <= r'.probeRound && r.applied <= r'.applied
  {
  }

  // Whatever happens after a client began to wait: by any later moment it has been answered if and
  // only if its slot has been applied since, was not applied by a catch-up, and was not taken by
  // another client; and it still waits if and only if its slot was not taken and was either not
  // applied yet or passed over.
  lemma {:induction false} FateOverRun(n: nat, acts: seq<Action>, more: seq<Action>, i: nat, k: nat)
    requires i < n && k in Agreement.ReplicaAt(n, acts, i).pending
    ensures var r := Agreement.ReplicaAt(n, acts, i);
            var r' := Agreement.ReplicaAt(n, acts + more, i);
            var t := r.pending[k];
            Fate(r, r', k, t, Taken(n, acts, more, i, k), PassedOver(n, acts, more, i, k))
    decreases |more|
  {
    var r := Agreement.ReplicaAt(n, acts, i);
    var t := r.pending[k];
    RunClients(n, acts, i);
    if |more| == 0 {
      assert acts + more == acts;
    } else {
      var fs, a := acts + Front(more), Last(more);
      assert fs + [a] == acts + more;
      FateOverRun(n, acts, Front(more), i, k);
      StepServes(n, fs, a, i);
      TakerIs(n, fs, a, i);
      Agreement.RunSize(n, fs);
      if Waits(Agreement.ReplicaAt(n, fs, i), k, t) {
        FateOfClient(n, fs, a, i, k);
        if Takes(Run(n, fs), a, i, k) {
          Shaped(n, fs, i);
          NotOurs(n, fs, i, k);
        }
      } else {
        GoneStays(n, fs, a, i, k, t);
      }
    }
  }

  // A client t waiting on slot k at r, seen again at r'.
  ghost predicate Fate(r: Replica, r': Replica, k: nat, t: Ticket, taken: bool, passed: bool) {
    && r.applied <= r'.applied
    && (passed ==> k < r'.applied)
    && (taken ==> t.round < r'.probeRound)
    && (Answered(r'.replies, k, t) <==> r.applied <= k < r'.applied && !taken && !passed)
    && (Waits(r', k, t) <==> !taken && (k < r.applied || r'.applied <= k || passed))
  }

  // A client whose slot was applied while it still waits is never answered: it waits forever, and no
  // reply for its slot is ever added.
  lemma {:induction false} PassedOverForever(n: nat, acts: seq<Action>, more: seq<Action>, i: nat, k: nat)
    requires i < n
    requires var r := Agreement.ReplicaAt(n, acts, i); k in r.pending && k < r.applied
    ensures var r := Agreement.ReplicaAt(n, acts, i);
            var r' := Agreement.ReplicaAt(n, acts + more, i);
            Passed(r, r', k)
    decreases |more|
  {
    if |more| == 0 {
      assert acts + more == acts;
    } else {
      var fs := acts + Front(more);
      PassedOverForever(n, acts, Front(more), i, k);
      PassedOnce(n, fs, Last(more), i, k, Agreement.ReplicaAt(n, acts, i));
      assert fs + [Last(more)] == acts + more;
    }
  }

  lemma PassedOnce(n: nat, acts: seq<Action>, a: Action, i: nat, k: nat, r0: Replica)
    requires i < n && k in r0.pending && Passed(r0, Agreement.ReplicaAt(n, acts, i), k)
    ensures Passed(r0, Agreement.ReplicaAt(n, acts + [a], i), k)
  {
    StepServes(n, acts, a, i);
    TakerIs(n, acts, a, i);
    StepPassed(Run(n, acts), a, i, r0, Agreement.ReplicaAt(n, acts, i),
               Agreement.ReplicaAt(n, acts + [a], i), k);
  }

  // The client on slot k still waits at r', behind the applied slot, as unanswered as at r.
  predicate Passed(r: Replica, r': Replica, k: nat)
    requires k in r.pending
  {
    && k in r'.pending && r'.pending[k] == r.pending[k] && k < r'.applied
    && (forall p | p in r'.replies && p.slot == k :: p in r.replies)
  }

  lemma StepPassed(s: Sys, a: Action, i: nat, r0: Replica, r: Replica, r': Replica, k: nat)
    requires k in r0.pending && Passed(r0, r, k) && Moves(s, a, i, r, r')
    requires Taker(s, a, i).Some? ==> r.applied <= r.nextSlot
    ensures Passed(r0, r', k)
  {
  }
}

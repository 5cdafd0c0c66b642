/** Every handler, as the composition of the moves it makes and the packets it sends,
    keeps the invariant of the cluster. */
module Handlers {
  import opened Common
  import opened TaskTypes
  import opened Quorums
  import opened ReplicaSpec
  import opened History
  import opened Evolution
  import opened LocalSteps
  import opened GlobalSteps
  import opened LeaderSteps
  import opened FollowerSteps
  import opened ElectionSteps

  lemma Emit(n: nat, rs: seq<Replica>, h: History, ps: seq<Packet>, out: seq<Packet>)
    requires AllOk(n, rs, h, ps)
    requires PacketsOk(n, rs, h, out)
    ensures AllOk(n, rs, h, ps + out)
  {
    forall p | p in ps + out ensures PacketOk(n, rs, h, p) {
      assert p in ps || p in out;
    }
  }

  // No acknowledgement is waiting to be counted.
  predicate Settled(r: Replica) { CommitPoint(r.followerAck) <= r.decided }

  lemma ApplyDecidedSettles(r: Replica)
    ensures Settled(ApplyDecided(r))
    ensures ApplyDecided(r).responses == r.responses
    ensures ApplyDecided(r).electionRound == r.electionRound
    ensures ApplyDecided(r).probeRound == r.probeRound
    ensures ApplyDecided(r).decided >= r.decided && ApplyDecided(r).applied >= r.applied
  {
    var r1 := TryDecide(r);
    ApplyToFrame(r1, r1.decided, true);
    ApplyToRaises(r1, r1.decided, true);
  }

  lemma {:induction false} ApplyToRaises(r: Replica, t: nat, notify: bool)
    ensures ApplyTo(r, t, notify).applied >= r.applied
    decreases End(r) - r.applied
  {
    if t <= r.applied || !CanApply(r) {
    } else {
      ApplyToRaises(ApplyOne(r, notify), t, notify);
    }
  }

  // ---- leading ----

  // A leader proposes its log as it stands, then applies what that decides.
  lemma ProposeAndApply(n: nat, i: nat, rs: seq<Replica>, h: History, rs': seq<Replica>,
                        ps: seq<Packet>) returns (h': History)
    requires AllOk(n, rs, h, ps) && i < n && rs[i].leader == i
    requires |rs'| == n && rs' == rs[i := ApplyDecided(rs[i])]
    ensures AllOk(n, rs', h', ps + SendPropose(rs[i]))
    ensures h.committed <= h'.committed && h'.proposed == h.proposed
    ensures h'.rounds == h.rounds
    ensures h'.acc == h.acc
  {
    assert RepOk(n, i, rs[i], h);
    BroadcastSound(n, rs, h, i, n);
    Emit(n, rs, h, ps, SendPropose(rs[i]));
    h' := LeaderApplies(n, i, rs, h, rs', ps + SendPropose(rs[i]));
  }

  lemma ClientOk(n: nat, i: nat, rs: seq<Replica>, h: History, ps: seq<Packet>,
                 id: nat, req: Request, now: int) returns (h': History)
    requires AllOk(n, rs, h, ps) && i < n
    ensures var e := ClientPropose(rs[i], id, req, now);
            AllOk(n, rs[i := e.r], h', ps + e.out)
    ensures h.committed <= h'.committed
    ensures if rs[i].leader == i then
              && Extends(h, h', rs[i].probeRound, ValueOf(req, now))
              && h'.proposed == h.proposed + {ValueOf(req, now)}
            else h' == h
    ensures AccKept(h, h')
  {
    assert RepOk(n, i, rs[i], h);
    if rs[i].leader == i {
      var t := Ticket(id, rs[i].probeRound, ValueOf(req, now));
      var rs1 := rs[i := Append(rs[i], t)];
      var h1 := AppendMove(n, i, rs, h, rs1, ps, t);
      var rs2 := rs[i := ApplyDecided(rs1[i])];
      h' := ProposeAndApply(n, i, rs1, h1, rs2, ps);
    } else {
      h' := h;
      assert rs[i := rs[i]] == rs && ps + [] == ps;
    }
  }

  lemma BecomeLeaderOk(n: nat, i: nat, rs: seq<Replica>, h: History, ps: seq<Packet>)
    returns (h': History)
    requires AllOk(n, rs, h, ps) && i < n
    requires rs[i].electionRound == rs[i].probeRound > 0 && rs[i].electionRound !in h.rounds
    requires |rs[i].responses| >= Quorum(n)
    ensures var e := BecomeLeader(rs[i]);
            AllOk(n, rs[i := e.r], h', ps + e.out)
    ensures h.committed <= h'.committed && h'.proposed == h.proposed
    ensures Opens(h, h', rs[i].electionRound, rs[i].responses)
    ensures AccKept(h, h')
  {
    var best := BestOf(rs[i].responses);
    assert ResponsesOk(n, rs, h, i);
    HaveBallot(n, rs, h, i);
    var rs1 := rs[i := CatchUp(rs[i], best.slot)];
    CatchUpMove(n, i, rs, h, rs1, ps, best.slot);
    var rs2 := rs[i := Adopt(rs1[i], best)];
    assert rs2 == rs1[i := rs2[i]];
    var h2 := AdoptMove(n, i, rs1, h, rs2, ps, best);
    AdoptLeads(n, i, rs2, h2, ps, Adopt(rs1[i], best));
    var rs3 := rs[i := ApplyDecided(rs2[i])];
    assert rs3 == rs2[i := rs3[i]];
    h' := ProposeAndApply(n, i, rs2, h2, rs3, ps);
  }

  lemma AdoptLeads(n: nat, i: nat, rs: seq<Replica>, h: History, ps: seq<Packet>, r: Replica)
    requires AllOk(n, rs, h, ps) && i < n && rs[i] == r && r.leader == r.index
    ensures rs[i].leader == i
  {
    assert RepOk(n, i, rs[i], h);
  }

  lemma ElectionOk(n: nat, i: nat, rs: seq<Replica>, h: History, ps: seq<Packet>)
    returns (h': History)
    requires AllOk(n, rs, h, ps) && i < n && rs[i].leader != i && rs[i].n == n
    ensures var e := StartElection(rs[i]);
            AllOk(n, rs[i := e.r], h', ps + e.out)
    ensures h.committed <= h'.committed && h'.proposed == h.proposed
    ensures h'.rounds == h.rounds
    ensures h'.acc == h.acc
  {
    var r1 := Candidate(rs[i]);
    var rs1 := rs[i := r1];
    CandidateMove(n, i, rs, h, rs1, ps);
    assert RepOk(n, i, rs1[i], h);
    ProbesSound(n, rs1, h, i, n);
    var probes := ProbeBelow(r1, n);
    Emit(n, rs1, h, ps, probes);
    h' := h;
    if 1 >= Quorum(n) {
      assert false;  // a lone replica leads from the start and never stands for election
    }
  }

  lemma TimeoutOk(n: nat, i: nat, rs: seq<Replica>, h: History, ps: seq<Packet>, silent: bool)
    returns (h': History)
    requires AllOk(n, rs, h, ps) && i < n && rs[i].n == n && rs[i].index == i
    ensures var e := Timeout(rs[i], silent);
            AllOk(n, rs[i := e.r], h', ps + e.out)
    ensures h.committed <= h'.committed && h'.proposed == h.proposed
    ensures h'.rounds == h.rounds
    ensures h'.acc == h.acc
  {
    if rs[i].leader == i {
      h' := ProposeAndApply(n, i, rs, h, rs[i := ApplyDecided(rs[i])], ps);
    } else if silent {
      h' := ElectionOk(n, i, rs, h, ps);
    } else {
      h' := h;
      assert rs[i := rs[i]] == rs && ps + [] == ps;
    }
  }

  // ---- receiving ----

  // Handling the message opened a round exactly if it is the response that wins one.
  predicate Opening(r: Replica, m: Message, h: History, h': History) {
    if Wins(r, m) then Opens(h, h', m.round, r.responses + [m]) else h'.rounds == h.rounds
  }

  lemma AckSound(n: nat, rs: seq<Replica>, h: History, i: nat, to: nat)
    requires n > 0 && |rs| == n && i < n && to < n && to != i && RepOk(n, i, rs[i], h)
    requires rs[i].ackRound == rs[i].probeRound && to == rs[i].probeRound % n
    requires rs[i].probeRound <= rs[to].probeRound
    ensures PacketsOk(n, rs, h, [Packet(to, AckFor(rs[i]))])
  {
    assert PacketOk(n, rs, h, Packet(to, AckFor(rs[i])));
  }

  lemma StaleOk(n: nat, i: nat, rs: seq<Replica>, h: History, ps: seq<Packet>, m: Message)
    requires AllOk(n, rs, h, ps) && i < n && PacketOk(n, rs, h, Packet(i, m))
    requires m.kind == Propose && m.round == rs[i].probeRound && StalePropose(rs[i], m)
    ensures var e := HandlePropose(rs[i], m);
            AllOk(n, rs[i := e.r], h, ps + e.out)
  {
    assert RepOk(n, i, rs[i], h);
    var rs' := rs[i := rs[i].(leader := m.sender)];
    assert RepOk(n, i, rs'[i], h);
    LocalMove(n, i, rs, h, rs', ps);
    AckSound(n, rs', h, i, m.sender);
    Emit(n, rs', h, ps, [Packet(m.sender, AckFor(rs'[i]))]);
  }

  // Taking the leader's decided slot and truncation point after its log was accepted.
  lemma LearnMove(n: nat, i: nat, rs: seq<Replica>, h: History, rs': seq<Replica>,
                  ps: seq<Packet>, d: nat)
    requires AllOk(n, rs, h, ps) && i < n
    requires DecidedBy(n, h, rs[i].ackRound, d) && d <= End(rs[i]) && d <= |h.committed|
    requires |rs'| == n && rs' == rs[i := rs[i].(decided := Max(rs[i].decided, d))]
    ensures AllOk(n, rs', h, ps)
  {
    assert RepOk(n, i, rs[i], h);
    LearnOk(n, i, rs[i], h, d);
    LocalMove(n, i, rs, h, rs', ps);
  }

  lemma TruncateMove(n: nat, i: nat, rs: seq<Replica>, h: History, rs': seq<Replica>,
                     ps: seq<Packet>, t: nat)
    requires AllOk(n, rs, h, ps) && i < n && t <= h.base && t <= rs[i].applied
    requires |rs'| == n && rs' == rs[i := TruncateTo(rs[i], t)]
    ensures AllOk(n, rs', h, ps)
  {
    assert RepOk(n, i, rs[i], h);
    TruncateOk(n, i, rs[i], h, t);
    LocalMove(n, i, rs, h, rs', ps);
  }

  lemma AcceptAndLearn(n: nat, i: nat, rs: seq<Replica>, h: History, rs': seq<Replica>,
                       ps: seq<Packet>, m: Message) returns (h': History)
    requires AllOk(n, rs, h, ps) && i < n && m.sender < n && m.sender != i
    requires ProposeOk(n, h, i, m) && m.round == rs[i].probeRound && !StalePropose(rs[i], m)
    requires |rs'| == n
    requires var r1 := AcceptLog(rs[i], m);
             rs' == rs[i := r1.(decided := Max(r1.decided, m.decidedSlot))]
    ensures AllOk(n, rs', h', ps)
    ensures h' == h.(acc := h'.acc) && m.truncationSlot <= h'.base
    ensures rs'[i].leader == m.sender
    ensures AccKept(h, h')
  {
    var r1 := AcceptLog(rs[i], m);
    var rs1 := rs[i := r1];
    h' := AcceptMove(n, i, rs, h, rs1, ps, m);
    AcceptedBy(rs[i], m);
    LearnAccepted(n, i, rs[i].probeRound, rs1, h, h', rs', ps, m);
    GrowsKeeps(n, i, rs[i].probeRound, h, h');
  }

  lemma LearnAccepted(n: nat, i: nat, from: nat, rs: seq<Replica>, h: History, h': History,
                      rs': seq<Replica>, ps: seq<Packet>, m: Message)
    requires AllOk(n, rs, h', ps) && i < n && ProposeOk(n, h, i, m)
    requires Grows(n, i, from, h, h')
    requires rs[i].ackRound == m.round && End(rs[i]) == m.slot + |m.values|
    requires |rs'| == n && rs' == rs[i := rs[i].(decided := Max(rs[i].decided, m.decidedSlot))]
    ensures AllOk(n, rs', h', ps)
  {
    DecidedStable(n, i, from, h, h', m.round, m.decidedSlot);
    LearnMove(n, i, rs, h', rs', ps, m.decidedSlot);
  }

  lemma AcceptedBy(r: Replica, m: Message)
    ensures var r1 := AcceptLog(r, m);
            r1.leader == m.sender && r1.ackRound == m.round && r1.index == r.index
  {
  }

  lemma ProposeHandled(n: nat, i: nat, rs: seq<Replica>, h: History, ps: seq<Packet>, m: Message)
    returns (h': History)
    requires AllOk(n, rs, h, ps) && i < n && PacketOk(n, rs, h, Packet(i, m))
    requires m.kind == Propose && m.round == rs[i].probeRound && Settled(rs[i])
    ensures var e := HandlePropose(rs[i], m);
            AllOk(n, rs[i := e.r], h', ps + e.out)
    ensures h'.committed == h.committed && h'.proposed == h.proposed
    ensures h'.rounds == h.rounds
    ensures AccKept(h, h')
  {
    if StalePropose(rs[i], m) {
      h' := h;
      StaleOk(n, i, rs, h, ps, m);
    } else {
      var r1 := AcceptLog(rs[i], m);
      var r2 := r1.(decided := Max(r1.decided, m.decidedSlot));
      var rs2 := rs[i := r2];
      h' := AcceptAndLearn(n, i, rs, h, rs2, ps, m);
      AcceptKeepsAcks(rs[i], m);
      var r3 := ApplyDecided(r2);
      var rs3 := rs[i := r3];
      assert rs3 == rs2[i := r3];
      FollowerApplies(n, i, rs2, h', rs3, ps);
      var r4 := TruncateTo(r3, Min(m.truncationSlot, r3.applied));
      var rs4 := rs[i := r4];
      assert rs4 == rs3[i := r4];
      TruncateMove(n, i, rs3, h', rs4, ps, Min(m.truncationSlot, r3.applied));
      AckAfterPropose(n, i, rs, rs4, h', ps, m, r4);
    }
  }

  lemma AcceptKeepsAcks(r: Replica, m: Message)
    ensures AcceptLog(r, m).followerAck == r.followerAck && AcceptLog(r, m).decided == r.decided
    ensures AcceptLog(r, m).ackRound == m.round && AcceptLog(r, m).probeRound == r.probeRound
  {
  }

  lemma AckAfterPropose(n: nat, i: nat, rs0: seq<Replica>, rs: seq<Replica>, h: History,
                        ps: seq<Packet>, m: Message, r: Replica)
    requires AllOk(n, rs, h, ps) && i < n && rs[i] == r
    requires |rs0| == n && rs == rs0[i := r]
    requires m.sender < n && m.sender != i && m.sender == m.round % n
    requires m.round <= rs0[m.sender].probeRound
    requires r.ackRound == m.round == r.probeRound
    ensures AllOk(n, rs, h, ps + [Packet(m.sender, AckFor(r))])
  {
    assert RepOk(n, i, rs[i], h);
    AckSound(n, rs, h, i, m.sender);
    Emit(n, rs, h, ps, [Packet(m.sender, AckFor(r))]);
  }

  // The PREPARE that completes a majority makes a leader; any other is just kept.
  lemma PrepareHandled(n: nat, i: nat, rs: seq<Replica>, h: History, ps: seq<Packet>, m: Message)
    returns (h': History)
    requires AllOk(n, rs, h, ps) && i < n && PacketOk(n, rs, h, Packet(i, m))
    requires m.kind == Prepare && rs[i].n == n
    requires m.round == rs[i].electionRound ==>
               forall x | x in rs[i].responses :: x.sender != m.sender
    ensures var e := HandlePrepare(rs[i], m);
            AllOk(n, rs[i := e.r], h', ps + e.out)
    ensures h.committed <= h'.committed && h'.proposed == h.proposed
    ensures Opening(rs[i], m, h, h')
    ensures AccKept(h, h')
  {
    var r := rs[i];
    h' := h;
    if m.round == r.electionRound && r.probeRound == r.electionRound {
      var r1 := r.(responses := r.responses + [m]);
      var rs1 := rs[i := r1];
      assert ResponsesOk(n, rs, h, i);
      CollectMove(n, i, rs, h, rs1, ps, m);
      if |r1.responses| == Quorum(n) {
        h' := BecomeLeaderOk(n, i, rs1, h, ps);
        var e := BecomeLeader(r1);
        assert rs1[i := e.r] == rs[i := e.r];
      } else {
        assert ps + [] == ps;
      }
    } else {
      assert rs[i := r] == rs && ps + [] == ps;
    }
  }

  lemma ProbeHandled(n: nat, i: nat, rs: seq<Replica>, h: History, ps: seq<Packet>, m: Message)
    requires AllOk(n, rs, h, ps) && i < n && PacketOk(n, rs, h, Packet(i, m))
    requires m.kind == Probe && m.round == rs[i].probeRound
    ensures AllOk(n, rs, h, ps + [Packet(m.sender, PrepareFor(rs[i], m.round))])
  {
    assert RepOk(n, i, rs[i], h);
    PrepareSound(n, rs, h, i, m.round);
    var p := Packet(m.sender, PrepareFor(rs[i], m.round));
    assert PacketOk(n, rs, h, p);
    Emit(n, rs, h, ps, [p]);
  }

  lemma AckHandled(n: nat, i: nat, rs: seq<Replica>, h: History, ps: seq<Packet>, m: Message)
    returns (h': History)
    requires AllOk(n, rs, h, ps) && i < n && PacketOk(n, rs, h, Packet(i, m))
    requires rs[i].leader == i
    ensures AllOk(n, rs[i := ApplyDecided(RecordAck(rs[i], m))], h', ps)
    ensures h.committed <= h'.committed && h'.proposed == h.proposed
    ensures h'.rounds == h.rounds
    ensures h'.acc == h.acc
  {
    var rs1 := rs[i := RecordAck(rs[i], m)];
    RecordAckMove(n, i, rs, h, rs1, ps, m);
    assert RepOk(n, i, rs1[i], h);
    var rs2 := rs[i := ApplyDecided(rs1[i])];
    assert rs2 == rs1[i := rs2[i]];
    h' := LeaderApplies(n, i, rs1, h, rs2, ps);
  }

  // After any stepping down: the message is of our round or older.
  lemma Dispatch(n: nat, i: nat, rs: seq<Replica>, h: History, ps: seq<Packet>, m: Message,
                 r0: Replica) returns (h': History)
    requires AllOk(n, rs, h, ps) && i < n && PacketOk(n, rs, h, Packet(i, m))
    requires rs[i] == StepDown(r0, m) && rs[i].n == n && rs[i].index == i && Settled(rs[i])
    requires m.kind == Prepare && m.round == rs[i].electionRound ==>
               forall x | x in rs[i].responses :: x.sender != m.sender
    ensures var e := Receive(r0, m);
            AllOk(n, rs[i := e.r], h', ps + e.out)
    ensures h.committed <= h'.committed && h'.proposed == h.proposed
    ensures Opening(rs[i], m, h, h')
    ensures AccKept(h, h')
  {
    var r := rs[i];
    h' := h;
    assert rs[i := r] == rs && ps + [] == ps;
    if m.round < r.probeRound {
    } else if m.kind == Probe {
      ProbeHandled(n, i, rs, h, ps, m);
    } else if m.kind == Prepare {
      h' := PrepareHandled(n, i, rs, h, ps, m);
    } else if r.leader == i {
      h' := AckHandled(n, i, rs, h, ps, m);
    } else if m.kind == Propose {
      h' := ProposeHandled(n, i, rs, h, ps, m);
    }
  }

  lemma StillSound(n: nat, i: nat, rs: seq<Replica>, h: History, rs1: seq<Replica>, m: Message)
    requires n > 0 && |rs| == n && i < n && PacketOk(n, rs, h, Packet(i, m))
    requires |rs1| == n && rs1 == rs[i := StepDown(rs[i], m)]
    ensures PacketOk(n, rs1, h, Packet(i, m))
  {
    assert ProbesGrow(rs, rs1);
    GrowsRefl(n, i, rs[i].probeRound, h);
    PacketStable(n, i, rs, rs1, h, h, Packet(i, m));
  }

  lemma ReceiveOk(n: nat, i: nat, rs: seq<Replica>, h: History, ps: seq<Packet>, m: Message)
    returns (h': History)
    requires AllOk(n, rs, h, ps) && i < n && PacketOk(n, rs, h, Packet(i, m)) && Settled(rs[i])
    requires m.kind == Prepare && m.round == rs[i].electionRound ==>
               forall x | x in rs[i].responses :: x.sender != m.sender
    ensures var e := Receive(rs[i], m);
            AllOk(n, rs[i := e.r], h', ps + e.out)
    ensures h.committed <= h'.committed && h'.proposed == h.proposed
    ensures Opening(StepDown(rs[i], m), m, h, h')
    ensures AccKept(h, h')
  {
    var rs1 := rs[i := StepDown(rs[i], m)];
    StepDownMove(n, i, rs, h, rs1, ps, m);
    assert RepOk(n, i, rs1[i], h);
    StillSound(n, i, rs, h, rs1, m);
    h' := Dispatch(n, i, rs1, h, ps, m, rs[i]);
    var e := Receive(rs[i], m);
    assert rs1[i := e.r] == rs[i := e.r];
  }
}

/** At-most-once delivery and elections: each round asks each replica once, so the promises a
    candidate collects come from different replicas. */
module Delivery {
  import opened Common
  import opened TaskTypes
  import opened Quorums
  import opened ReplicaSpec
  import opened History
  import opened LocalSteps
  import opened Handlers

  // PROBEs and PREPAREs belong to one question: a round asking one member.
  predicate Asks(p: Packet) { p.msg.kind == Probe || p.msg.kind == Prepare }

  function Member(p: Packet): nat {
    if p.msg.kind == Probe then p.dst else p.msg.sender
  }

  predicate SameQuestion(p: Packet, q: Packet) {
    Asks(p) && Asks(q) && p.msg.round == q.msg.round && Member(p) == Member(q)
  }

  predicate Waiting(ps: seq<Packet>, spent: set<nat>, a: nat) { a < |ps| && a !in spent }

  ghost predicate OneQuestion(ps: seq<Packet>, spent: set<nat>) {
    forall a, b | 0 <= a < b && Waiting(ps, spent, a) && Waiting(ps, spent, b) ::
      !SameQuestion(ps[a], ps[b])
  }

  // The candidate has no answer yet to a question still on its way.
  predicate Unanswered(n: nat, rs: seq<Replica>, p: Packet)
    requires n > 0 && |rs| == n
  {
    var r := rs[p.msg.round % n];
    Asks(p) && r.electionRound == p.msg.round ==>
      forall x | x in r.responses :: x.sender != Member(p)
  }

  ghost predicate QuestionsOk(n: nat, rs: seq<Replica>, ps: seq<Packet>, spent: set<nat>)
    requires n > 0 && |rs| == n
  {
    && OneQuestion(ps, spent)
    && forall a {:trigger Unanswered(n, rs, ps[a])} | 0 <= a && Waiting(ps, spent, a) ::
         Unanswered(n, rs, ps[a])
  }

  predicate Quiet(out: seq<Packet>) { forall p | p in out :: !Asks(p) }

  predicate SameElections(rs: seq<Replica>, rs': seq<Replica>) {
    && |rs| == |rs'|
    && forall i | 0 <= i < |rs| ::
         rs'[i].responses == rs[i].responses && rs'[i].electionRound == rs[i].electionRound
  }

  lemma QuietStep(n: nat, rs: seq<Replica>, rs': seq<Replica>, ps: seq<Packet>, out: seq<Packet>,
                  spent: set<nat>, spent': set<nat>)
    requires n > 0 && |rs| == n && QuestionsOk(n, rs, ps, spent) && SameElections(rs, rs')
    requires spent <= spent' && Quiet(out)
    ensures QuestionsOk(n, rs', ps + out, spent')
  {
    forall a | 0 <= a && Waiting(ps + out, spent', a) ensures Unanswered(n, rs', (ps + out)[a]) {
      if a < |ps| {
        assert Waiting(ps, spent, a) && Unanswered(n, rs, ps[a]);
      } else {
        assert (ps + out)[a] in out;
      }
    }
    forall a, b | 0 <= a < b && Waiting(ps + out, spent', a) && Waiting(ps + out, spent', b)
      ensures !SameQuestion((ps + out)[a], (ps + out)[b]) {
      if b < |ps| {
        assert Waiting(ps, spent, a) && Waiting(ps, spent, b);
      } else {
        assert (ps + out)[b] in out;
      }
    }
  }

  // Answering a PROBE replaces the question by its answer.
  lemma AnswerStep(n: nat, rs: seq<Replica>, rs': seq<Replica>, ps: seq<Packet>, k: nat,
                   answer: Packet, spent: set<nat>)
    requires n > 0 && |rs| == n && QuestionsOk(n, rs, ps, spent) && SameElections(rs, rs')
    requires Waiting(ps, spent, k) && SameQuestion(ps[k], answer)
    ensures QuestionsOk(n, rs', ps + [answer], spent + {k})
  {
    var ps' := ps + [answer];
    var spent' := spent + {k};
    assert Unanswered(n, rs, ps[k]);
    forall a | 0 <= a && Waiting(ps', spent', a) ensures Unanswered(n, rs', ps'[a]) {
      if a < |ps| {
        assert Waiting(ps, spent, a) && Unanswered(n, rs, ps[a]);
      }
    }
    forall a, b | 0 <= a < b && Waiting(ps', spent', a) && Waiting(ps', spent', b)
      ensures !SameQuestion(ps'[a], ps'[b]) {
      assert Waiting(ps, spent, a) && a != k;
      if b < |ps| {
        assert Waiting(ps, spent, b);
      } else if a < k {
        assert !SameQuestion(ps[a], ps[k]);
      } else {
        assert !SameQuestion(ps[k], ps[a]);
      }
    }
  }

  // Collecting an answer: nothing else in flight belongs to the same question.
  lemma CollectStep(n: nat, i: nat, rs: seq<Replica>, rs': seq<Replica>, ps: seq<Packet>, k: nat,
                    out: seq<Packet>, spent: set<nat>)
    requires n > 0 && |rs| == n && i < n && QuestionsOk(n, rs, ps, spent)
    requires Waiting(ps, spent, k) && ps[k].msg.kind == Prepare
    requires |rs'| == n && rs' == rs[i := rs'[i]]
    requires rs'[i].electionRound == rs[i].electionRound == ps[k].msg.round
    requires rs'[i].responses == rs[i].responses + [ps[k].msg]
    requires Quiet(out)
    ensures QuestionsOk(n, rs', ps + out, spent + {k})
  {
    var spent' := spent + {k};
    forall a | 0 <= a && Waiting(ps, spent', a) ensures Unanswered(n, rs', ps[a]) {
      assert Waiting(ps, spent, a) && Unanswered(n, rs, ps[a]);
      if a < k {
        assert !SameQuestion(ps[a], ps[k]);
      } else {
        assert !SameQuestion(ps[k], ps[a]);
      }
      UnansweredAfter(n, i, rs, rs', ps[a], ps[k]);
    }
    assert OneQuestion(ps, spent') by {
      forall a, b | 0 <= a < b && Waiting(ps, spent', a) && Waiting(ps, spent', b)
        ensures !SameQuestion(ps[a], ps[b]) {
        assert Waiting(ps, spent, a) && Waiting(ps, spent, b);
      }
    }
    assert QuestionsOk(n, rs', ps, spent');
    QuietStep(n, rs', rs', ps, out, spent', spent');
  }

  lemma UnansweredAfter(n: nat, i: nat, rs: seq<Replica>, rs': seq<Replica>, p: Packet, q: Packet)
    requires n > 0 && |rs| == n && i < n && |rs'| == n && rs' == rs[i := rs'[i]]
    requires Unanswered(n, rs, p) && !SameQuestion(p, q) && q.msg.kind == Prepare
    requires rs'[i].electionRound == rs[i].electionRound == q.msg.round
    requires rs'[i].responses == rs[i].responses + [q.msg]
    ensures Unanswered(n, rs', p)
  {
    var o := p.msg.round % n;
    if o == i && Asks(p) && rs'[i].electionRound == p.msg.round {
      forall x | x in rs'[i].responses ensures x.sender != Member(p) {
        assert x in rs[i].responses || x == q.msg;
      }
    }
  }

  // ---- a new round asks everyone else once ----

  lemma {:induction false} ProbesAre(r: Replica, k: nat)
    ensures forall a | 0 <= a < |ProbeBelow(r, k)| ::
              ProbeBelow(r, k)[a].msg == ProbeFor(r)
              && ProbeBelow(r, k)[a].dst < k && ProbeBelow(r, k)[a].dst != r.index
    ensures forall a, b | 0 <= a < b < |ProbeBelow(r, k)| ::
              ProbeBelow(r, k)[a].dst < ProbeBelow(r, k)[b].dst
  {
    if k == 0 {
    } else {
      ProbesAre(r, k - 1);
    }
  }

  lemma ElectionStep(n: nat, i: nat, rs: seq<Replica>, rs': seq<Replica>, h: History,
                     ps: seq<Packet>, spent: set<nat>)
    requires n > 0 && |rs| == n && i < n && QuestionsOk(n, rs, ps, spent)
    requires PacketsOk(n, rs, h, ps)
    requires rs[i].n == n && rs[i].index == i && |rs'| == n && rs' == rs[i := Candidate(rs[i])]
    requires rs'[i].electionRound > rs[i].probeRound && rs'[i].electionRound % n == i
    ensures QuestionsOk(n, rs', ps + ProbeBelow(rs'[i], n), spent)
  {
    var out := ProbeBelow(rs'[i], n);
    var all := ps + out;
    var e := rs'[i].electionRound;
    ProbesAre(rs'[i], n);
    forall a | 0 <= a && Waiting(all, spent, a) ensures Unanswered(n, rs', all[a]) {
      if a < |ps| {
        assert Waiting(ps, spent, a) && Unanswered(n, rs, ps[a]);
        NotYetAsked(n, i, rs, h, ps, a, e);
      } else {
        assert all[a] == out[a - |ps|];
      }
    }
    forall a, b | 0 <= a < b && Waiting(all, spent, a) && Waiting(all, spent, b)
      ensures !SameQuestion(all[a], all[b]) {
      if b < |ps| {
        assert Waiting(ps, spent, a) && Waiting(ps, spent, b);
      } else if a < |ps| {
        NotYetAsked(n, i, rs, h, ps, a, e);
      } else {
        assert all[a] == out[a - |ps|] && all[b] == out[b - |ps|];
      }
    }
  }

  lemma NotYetAsked(n: nat, i: nat, rs: seq<Replica>, h: History, ps: seq<Packet>, a: nat, e: nat)
    requires n > 0 && |rs| == n && i < n && a < |ps| && PacketsOk(n, rs, h, ps)
    requires e > rs[i].probeRound && e % n == i
    ensures ps[a].msg.round != e
  {
    assert ps[a] in ps && PacketOk(n, rs, h, ps[a]);
  }

  // ---- what the handlers send ----

  lemma {:induction false} ProposalsQuiet(r: Replica, k: nat)
    requires k <= |r.followerAck|
    ensures Quiet(ProposeBelow(r, k))
  {
    if k == 0 {
    } else {
      ProposalsQuiet(r, k - 1);
      forall p | p in ProposeBelow(r, k) ensures !Asks(p) {
        if p in ProposeBelow(r, k - 1) {
        }
      }
    }
  }

  lemma SendQuiet(r: Replica)
    ensures Quiet(SendPropose(r))
  {
    if r.n <= |r.followerAck| {
      ProposalsQuiet(r, r.n);
    }
  }

  lemma BecomeLeaderShape(r: Replica)
    ensures Quiet(BecomeLeader(r).out)
    ensures BecomeLeader(r).r.responses == r.responses
    ensures BecomeLeader(r).r.electionRound == r.electionRound
    ensures BecomeLeader(r).r.probeRound == r.probeRound
    ensures |r.responses| > 0 ==> Settled(BecomeLeader(r).r)
    ensures BecomeLeader(r).r.decided >= r.decided && BecomeLeader(r).r.applied >= r.applied
  {
    if |r.responses| > 0 {
      var best := BestOf(r.responses);
      ApplyToFrame(r, best.slot, false);
      ApplyToRaises(r, best.slot, false);
      var r1 := Adopt(CatchUp(r, best.slot), best);
      SendQuiet(r1);
      ApplyDecidedSettles(r1);
    }
  }

  lemma HandleProposeShape(r: Replica, m: Message)
    requires Settled(r)
    ensures Quiet(HandlePropose(r, m).out)
    ensures HandlePropose(r, m).r.responses == r.responses
    ensures HandlePropose(r, m).r.electionRound == r.electionRound
    ensures Settled(HandlePropose(r, m).r)
    ensures HandlePropose(r, m).r.decided >= r.decided && HandlePropose(r, m).r.applied >= r.applied
  {
    if !StalePropose(r, m) {
      AcceptShape(r, m);
      var r1 := AcceptLog(r, m);
      var r2 := r1.(decided := Max(r1.decided, m.decidedSlot));
      ApplyDecidedSettles(r2);
      TruncateShape(ApplyDecided(r2), Min(m.truncationSlot, ApplyDecided(r2).applied));
    }
  }

  lemma AcceptShape(r: Replica, m: Message)
    ensures var r1 := AcceptLog(r, m);
            r1.responses == r.responses && r1.electionRound == r.electionRound
            && r1.decided == r.decided && r1.applied >= r.applied
  {
  }

  lemma TruncateShape(r: Replica, t: nat)
    ensures var r1 := TruncateTo(r, t);
            r1 == r.(log := r1.log, logBase := r1.logBase)
  {
  }

  // How handling a message that is not a question bears on elections and the cursors.
  ghost predicate Answers(r: Replica, m: Message, e: Effect) {
    && Settled(e.r)
    && e.r.electionRound == r.electionRound
    && e.r.decided >= r.decided
    && e.r.applied >= r.applied
    && Quiet(e.out)
    && (e.r.responses == r.responses
        || (m.kind == Prepare && m.round == r.electionRound && e.r.responses == r.responses + [m]))
  }

  lemma PrepareShape(r: Replica, m: Message)
    requires Settled(r) && m.kind == Prepare
    ensures Answers(r, m, HandlePrepare(r, m))
  {
    BecomeLeaderShape(r.(responses := r.responses + [m]));
  }

  lemma LeaderShape(r: Replica, m: Message)
    requires Settled(r)
    ensures Answers(r, m, Effect(ApplyDecided(RecordAck(r, m)), []))
  {
    ApplyDecidedSettles(RecordAck(r, m));
  }

  lemma ProposeShape(r: Replica, m: Message)
    requires Settled(r)
    ensures Answers(r, m, HandlePropose(r, m))
  {
    HandleProposeShape(r, m);
  }

  lemma StepDownShape(r: Replica, m: Message, e: Effect)
    requires Answers(StepDown(r, m), m, e)
    ensures Answers(r, m, e)
  {
  }

  // How receiving a message bears on elections, acknowledgements and the cursors.
  ghost predicate Shaped(r: Replica, m: Message, e: Effect) {
    && Settled(e.r)
    && e.r.electionRound == r.electionRound
    && e.r.decided >= r.decided
    && e.r.applied >= r.applied
    && if m.kind == Probe && m.round >= r.probeRound then
         e.r.responses == r.responses
         && e.out == [Packet(m.sender, PrepareFor(StepDown(r, m), m.round))]
       else
         && Quiet(e.out)
         && (e.r.responses == r.responses
             || (m.kind == Prepare && m.round == r.electionRound
                 && e.r.responses == r.responses + [m]))
  }

  lemma ReceiveShape(r: Replica, m: Message)
    requires Settled(r)
    ensures Shaped(r, m, Receive(r, m))
  {
    var r1 := StepDown(r, m);
    if m.round < r1.probeRound || m.kind == Probe {
    } else {
      if m.kind == Prepare {
        PrepareShape(r1, m);
      } else if r1.index == r1.leader {
        LeaderShape(r1, m);
      } else if m.kind == Propose {
        ProposeShape(r1, m);
      }
      StepDownShape(r, m, Receive(r, m));
    }
  }

  lemma ClientShape(r: Replica, id: nat, req: Request, now: int)
    requires Settled(r)
    ensures var e := ClientPropose(r, id, req, now);
            && Settled(e.r) && Quiet(e.out)
            && e.r.electionRound == r.electionRound && e.r.responses == r.responses
            && e.r.decided >= r.decided && e.r.applied >= r.applied
  {
    if r.index == r.leader {
      var r1 := Append(r, Ticket(id, r.probeRound, ValueOf(req, now)));
      SendQuiet(r1);
      ApplyDecidedSettles(r1);
    }
  }

  lemma RetransmitShape(r: Replica)
    requires r.n > 0 && r.index == r.leader
    ensures var e := Timeout(r, false);
            && Settled(e.r) && Quiet(e.out)
            && e.r.electionRound == r.electionRound && e.r.responses == r.responses
            && e.r.decided >= r.decided && e.r.applied >= r.applied
  {
    SendQuiet(r);
    ApplyDecidedSettles(r);
  }
}

/** Elections: picking a round, promising, collecting promises and adopting the best log. */
module ElectionSteps {
  import opened Common
  import opened TaskTypes
  import opened Quorums
  import opened ReplicaSpec
  import opened History
  import opened Evolution
  import opened LocalSteps
  import opened GlobalSteps
  import opened LeaderSteps
  import opened FollowerSteps

  // ---- rounds have one owner ----

  // A new round is above every round seen and belongs to its replica.
  lemma NextRoundOwner(r: Replica)
    requires r.n > 0 && r.index < r.n
    ensures NextRound(r) > r.probeRound
    ensures NextRound(r) % r.n == r.index
  {
    var k := r.probeRound / r.n;
    assert NextRound(r) == r.n * (k + 1) + r.index;
    ModOfMultiple(r.n, k + 1, r.index);
  }

  // Rounds a replica owns never run ahead of the round it has reached.
  lemma OwnRoundsReached(n: nat, rs: seq<Replica>, rounds: map<nat, Round>, i: nat)
    requires n > 0 && |rs| == n && i < n && OwnedOk(n, rs, rounds)
    ensures forall q | q in rounds && q % n == i :: q <= rs[i].probeRound
  {
    forall q | q in rounds && q % n == i ensures q <= rs[i].probeRound {
      assert Reached(n, rs, q);
    }
  }

  // ---- promising ----

  // Reporting our log for a round we have reached is a promise we can keep.
  lemma PrepareSound(n: nat, rs: seq<Replica>, h: History, i: nat, round: nat)
    requires n > 0 && |rs| == n && |h.acc| == n && i < n && RepOk(n, i, rs[i], h)
    requires 0 < round <= rs[i].probeRound && rs[i].ackRound <= round
    ensures PrepareOk(n, rs, h, PrepareFor(rs[i], round))
  {
  }

  // ---- standing for election ----

  lemma CandidateMove(n: nat, i: nat, rs: seq<Replica>, h: History, rs': seq<Replica>,
                      ps: seq<Packet>)
    requires AllOk(n, rs, h, ps) && i < n && rs[i].leader != i && rs[i].n == n
    requires |rs'| == n && rs' == rs[i := Candidate(rs[i])]
    ensures AllOk(n, rs', h, ps)
    ensures rs'[i].electionRound == rs'[i].probeRound > rs[i].probeRound
    ensures rs'[i].electionRound % n == i && rs'[i].electionRound !in h.rounds
    ensures rs'[i].leader != i
  {
    var r := rs[i];
    assert RepOk(n, i, r, h);
    NextRoundOwner(r);
    assert RepOk(n, i, rs'[i], h);
    LocalCore(n, i, rs, h, rs');
    OwnRoundsReached(n, rs, h.rounds, i);
    CandidateResponses(n, i, rs', h, r);
    GrowsRefl(n, i, r.probeRound, h);
    AdvanceMessages(n, i, rs, h, rs', h, ps);
  }

  lemma CandidateResponses(n: nat, i: nat, rs': seq<Replica>, h: History, r: Replica)
    requires n > 0 && |rs'| == n && |h.acc| == n && i < n && r.n == n
    requires rs'[i] == Candidate(r) && RepOk(n, i, rs'[i], h) && r.ackRound <= r.probeRound
    requires 0 < NextRound(r) && NextRound(r) !in h.rounds && r.probeRound < NextRound(r)
    ensures ResponsesOk(n, rs', h, i)
  {
    PrepareSound(n, rs', h, i, NextRound(r));
    assert PrepareFor(rs'[i], NextRound(r)) == PrepareFor(r, NextRound(r));
  }

  lemma {:induction false} ProbesSound(n: nat, rs: seq<Replica>, h: History, i: nat, k: nat)
    requires n > 0 && |rs| == n && i < n && k <= n
    requires Shape(n, i, rs[i]) && rs[i].electionRound == rs[i].probeRound > 0
    ensures PacketsOk(n, rs, h, ProbeBelow(rs[i], k))
  {
    if k == 0 {
    } else {
      ProbesSound(n, rs, h, i, k - 1);
      if k - 1 != i {
        assert PacketOk(n, rs, h, Packet(k - 1, ProbeFor(rs[i])));
      }
      forall p | p in ProbeBelow(rs[i], k) ensures PacketOk(n, rs, h, p) {
        if p in ProbeBelow(rs[i], k - 1) {
        }
      }
    }
  }

  // ---- collecting promises ----

  lemma CollectMove(n: nat, i: nat, rs: seq<Replica>, h: History, rs': seq<Replica>,
                    ps: seq<Packet>, m: Message)
    requires AllOk(n, rs, h, ps) && i < n
    requires PrepareOk(n, rs, h, m) && m.round == rs[i].electionRound
    requires forall x | x in rs[i].responses :: x.sender != m.sender
    requires |rs'| == n && rs' == rs[i := rs[i].(responses := rs[i].responses + [m])]
    ensures AllOk(n, rs', h, ps)
  {
    assert RepOk(n, i, rs[i], h);
    LocalCore(n, i, rs, h, rs');
    CollectResponses(n, i, rs, h, rs', m);
    GrowsRefl(n, i, rs[i].probeRound, h);
    AdvanceMessages(n, i, rs, h, rs', h, ps);
  }

  lemma CollectResponses(n: nat, i: nat, rs: seq<Replica>, h: History, rs': seq<Replica>,
                         m: Message)
    requires n > 0 && |rs| == n && i < n && AllResponsesOk(n, rs, h)
    requires PrepareOk(n, rs, h, m) && m.round == rs[i].electionRound
    requires forall x | x in rs[i].responses :: x.sender != m.sender
    requires |rs'| == n && rs' == rs[i := rs[i].(responses := rs[i].responses + [m])]
    ensures ResponsesOk(n, rs', h, i)
  {
    assert ResponsesOk(n, rs, h, i);
    forall x | x in rs'[i].responses ensures PrepareOk(n, rs', h, x) && x.round == m.round {
      assert x in rs[i].responses || x == m;
    }
  }

  // ---- adopting ----

  function Senders(ms: seq<Message>): set<nat> {
    set k | 0 <= k < |ms| :: ms[k].sender
  }

  lemma {:induction false} DistinctSenders(ms: seq<Message>)
    requires forall a, b | 0 <= a < b < |ms| :: ms[a].sender != ms[b].sender
    ensures |Senders(ms)| == |ms|
  {
    if |ms| == 0 {
    } else {
      DistinctSenders(Front(ms));
      assert Senders(ms) == Senders(Front(ms)) + {Last(ms).sender};
      assert Last(ms).sender !in Senders(Front(ms));
    }
  }

  // The round a candidate opens by adopting its best response.
  function Opened(h: History, best: Message, ms: seq<Message>): Round
    requires best.ackRound in h.rounds && best.ackSlot <= |h.rounds[best.ackRound].log|
  {
    Round(h.rounds[best.ackRound].log[..best.ackSlot], best.ackRound, best.ackSlot, Senders(ms))
  }

  // A round was opened by adopting the best of the responses.
  predicate Opens(h: History, h': History, e: nat, ms: seq<Message>) {
    && |ms| > 0
    && var best := BestOf(ms);
       && e !in h.rounds
       && best.ackRound in h.rounds
       && best.ackRound < e
       && best.ackSlot <= |h.rounds[best.ackRound].log|
       && h'.rounds == h.rounds[e := Opened(h, best, ms)]
  }

  function Adopting(h: History, i: nat, e: nat, best: Message, ms: seq<Message>): History
    requires i < |h.acc|
    requires best.ackRound in h.rounds && best.ackSlot <= |h.rounds[best.ackRound].log|
  {
    var reach: map<nat, nat> := h.acc[i][e := best.ackSlot];
    h.(rounds := h.rounds[e := Opened(h, best, ms)], acc := h.acc[i := reach])
  }

  // What a majority of frozen reports says: best is the last word of every round before e.
  ghost predicate Ballot(n: nat, rs: seq<Replica>, h: History, e: nat, best: Message,
                         ms: seq<Message>)
    requires |rs| == n
  {
    && e > 0
    && e !in h.rounds
    && best in ms
    && (forall x | x in ms :: PrepareOk(n, rs, h, x) && x.round == e && !Weaker(best, x))
    && (forall a, b | 0 <= a < b < |ms| :: ms[a].sender != ms[b].sender)
    && |ms| >= Quorum(n)
  }

  lemma BallotSenders(n: nat, rs: seq<Replica>, h: History, e: nat, best: Message,
                      ms: seq<Message>, j: nat)
    requires |rs| == n && Ballot(n, rs, h, e, best, ms) && j in Senders(ms)
    ensures j < n && e <= rs[j].probeRound
    ensures Acc(h.acc, j, best.ackRound) <= best.ackSlot
    ensures forall t | best.ackRound < t < e :: Acc(h.acc, j, t) == 0
  {
    var k :| 0 <= k < |ms| && ms[k].sender == j;
    var x := ms[k];
    assert x in ms && PrepareOk(n, rs, h, x) && !Weaker(best, x);
    assert x.ackRound < e;
  }

  lemma OpenedOk(n: nat, i: nat, rs: seq<Replica>, h: History, e: nat, best: Message,
                 ms: seq<Message>)
    requires n > 0 && |rs| == n && |h.acc| == n && i < n && RoundsOk(n, h)
    requires Ballot(n, rs, h, e, best, ms)
    requires PrepareOk(n, rs, h, best)
    ensures RoundOk(n, Adopting(h, i, e, best, ms), e)
  {
    var h' := Adopting(h, i, e, best, ms);
    DistinctSenders(ms);
    assert RoundOk(n, h, best.ackRound);
    assert best.ackRound < e;
    forall j | j in Senders(ms)
      ensures j < n && Acc(h'.acc, j, best.ackRound) <= best.ackSlot
      ensures forall t | best.ackRound < t < e :: Acc(h'.acc, j, t) == 0 {
      BallotSenders(n, rs, h, e, best, ms, j);
    }
  }

  lemma AdoptGrows(n: nat, i: nat, r: Replica, h: History, e: nat, best: Message,
                   ms: seq<Message>)
    requires n > 0 && i < |h.acc| && LogOk(n, i, r, h) && r.ackRound < e == r.probeRound
    requires e !in h.rounds
    requires best.ackRound in h.rounds && best.ackSlot <= |h.rounds[best.ackRound].log|
    ensures Grows(n, i, r.probeRound, h, Adopting(h, i, e, best, ms))
  {
  }

  lemma AdoptRounds(n: nat, i: nat, rs: seq<Replica>, h: History, e: nat, best: Message,
                    ms: seq<Message>)
    requires n > 0 && |rs| == n && |h.acc| == n && i < n
    requires RoundsOk(n, h) && CommittedOk(n, h) && PromisesOk(n, rs, h.rounds)
    requires Ballot(n, rs, h, e, best, ms) && PrepareOk(n, rs, h, best)
    requires Grows(n, i, rs[i].probeRound, h, Adopting(h, i, e, best, ms))
    ensures RoundsOk(n, Adopting(h, i, e, best, ms))
    ensures CommittedOk(n, Adopting(h, i, e, best, ms))
  {
    var h' := Adopting(h, i, e, best, ms);
    OpenedOk(n, i, rs, h, e, best, ms);
    forall q | q in h'.rounds ensures RoundOk(n, h', q) {
      if q != e {
        assert RoundOk(n, h, q);
        RoundStable(n, i, rs, h, h', q);
      }
    }
    forall j, t | Acc(h'.acc, j, t) > 0
      ensures t in h'.rounds && Acc(h'.acc, j, t) <= |h'.rounds[t].log| {
      assert Acc(h'.acc, j, t) == Acc(h.acc, j, t) || (j == i && t == e);
    }
    ChosenStable(n, i, rs[i].probeRound, h, h', h.chosenRound, |h.committed|);
  }

  lemma AdoptPromises(n: nat, i: nat, rs: seq<Replica>, h: History, rs': seq<Replica>, e: nat,
                      best: Message, ms: seq<Message>)
    requires n > 0 && |rs| == n && |h.acc| == n && i < n
    requires OwnedOk(n, rs, h.rounds) && PromisesOk(n, rs, h.rounds)
    requires Ballot(n, rs, h, e, best, ms) && PrepareOk(n, rs, h, best)
    requires |rs'| == n && rs' == rs[i := rs'[i]] && rs'[i].probeRound == rs[i].probeRound
    requires e % n == i && e == rs[i].probeRound
    ensures OwnedOk(n, rs', Adopting(h, i, e, best, ms).rounds)
    ensures PromisesOk(n, rs', Adopting(h, i, e, best, ms).rounds)
  {
    var h' := Adopting(h, i, e, best, ms);
    forall q | q in h'.rounds ensures Reached(n, rs', q) {
      assert q != e ==> Reached(n, rs, q);
    }
    forall q, j | q in h'.rounds && 0 <= j < n && j in h'.rounds[q].quorum
      ensures q <= rs'[j].probeRound {
      if q == e {
        BallotSenders(n, rs, h, e, best, ms, j);
      }
    }
  }

  // The new leader's own invariant.
  lemma AdoptRep(n: nat, i: nat, r: Replica, h: History, best: Message, ms: seq<Message>,
                 r': Replica, h': History)
    requires n > 0 && i < |h.acc| && RepOk(n, i, r, h)
    requires r.electionRound == r.probeRound && r.electionRound % n == i
    requires r.ackRound < r.electionRound && r.electionRound !in h.rounds
    requires best.ackRound in h.rounds && best.ackSlot <= |h.rounds[best.ackRound].log|
    requires best.ackSlot == best.slot + |best.values| && best.slot <= h.base
    requires best.values == h.rounds[best.ackRound].log[best.slot..best.ackSlot]
    requires h' == Adopting(h, i, r.electionRound, best, ms)
    requires Grows(n, i, r.probeRound, h, h') && RoundsOk(n, h')
    requires best.slot <= r.applied && r' == Adopt(r, best)
    ensures RepOk(n, i, r', h')
  {
    DecidedStable(n, i, r.probeRound, h, h', r.ackRound, r.decided);
    LaterRoundAgrees(n, h', r.ackRound, r.electionRound, r.decided);
    AdoptDb(r, h, h', r');
    assert best.values == h'.rounds[r.electionRound].log[best.slot..best.ackSlot];
    RepliesStable(n, i, h, h', r);
    PendingStable(n, i, h, h', r);
    AdoptLeader(n, i, r, h, best, ms, r', h');
    AdoptBase(n, i, r, h, best, r', h');
  }

  lemma AdoptDb(r: Replica, h: History, h': History, r': Replica)
    requires DbOk(r, h) && r'.db == r.db && r'.ran == r.ran && r'.applied == r.applied <= r.decided
    requires r'.ackRound == r.electionRound && r'.ackRound in h'.rounds && r.ackRound in h'.rounds
    requires h.rounds[r.ackRound].log <= h'.rounds[r.ackRound].log
    requires r.decided <= |h'.rounds[r.ackRound].log| && r.decided <= |h'.rounds[r'.ackRound].log|
    requires h'.rounds[r'.ackRound].log[..r.decided] == h'.rounds[r.ackRound].log[..r.decided]
    ensures DbOk(r', h')
  {
    var new0 := h'.rounds[r'.ackRound].log;
    var old0 := h'.rounds[r.ackRound].log;
    assert new0[..r.applied] == new0[..r.decided][..r.applied];
    assert old0[..r.applied] == old0[..r.decided][..r.applied];
    assert old0[..r.applied] == h.rounds[r.ackRound].log[..r.applied];
  }

  lemma AdoptLeader(n: nat, i: nat, r: Replica, h: History, best: Message, ms: seq<Message>,
                    r': Replica, h': History)
    requires n > 0 && i < |h.acc| && Shape(n, i, r)
    requires r.electionRound == r.probeRound && r.electionRound % n == i
    requires best.ackRound in h.rounds && best.ackSlot <= |h.rounds[best.ackRound].log|
    requires best.ackSlot == best.slot + |best.values| && best.slot <= h.base
    requires h' == Adopting(h, i, r.electionRound, best, ms)
    requires r' == Adopt(r, best)
    ensures LeaderOk(n, i, r', h')
  {
    assert Acc(h'.acc, i, r.electionRound) == best.ackSlot;
  }

  lemma AdoptBase(n: nat, i: nat, r: Replica, h: History, best: Message, r': Replica, h': History)
    requires n > 0 && BaseOk(i, r, h) && r.ackRound < r.electionRound
    requires h'.base == h.base && h'.baseRound == h.baseRound && best.slot <= h.base
    requires Grows(n, i, r.probeRound, h, h')
    requires r' == Adopt(r, best)
    ensures BaseOk(i, r', h')
  {
    AccMonotone(n, i, r.probeRound, h, h', i, h.baseRound);
  }

  lemma AdoptCore(n: nat, i: nat, rs: seq<Replica>, h: History, rs': seq<Replica>, e: nat,
                  best: Message, ms: seq<Message>)
    requires CoreOk(n, rs, h) && i < n
    requires |rs'| == n && rs' == rs[i := rs'[i]] && rs'[i].probeRound == rs[i].probeRound
    requires e % n == i && e == rs[i].probeRound
    requires Ballot(n, rs, h, e, best, ms) && PrepareOk(n, rs, h, best)
    requires Grows(n, i, rs[i].probeRound, h, Adopting(h, i, e, best, ms))
    requires RoundsOk(n, Adopting(h, i, e, best, ms)) && CommittedOk(n, Adopting(h, i, e, best, ms))
    requires RepOk(n, i, rs'[i], Adopting(h, i, e, best, ms))
    ensures CoreOk(n, rs', Adopting(h, i, e, best, ms))
  {
    var h' := Adopting(h, i, e, best, ms);
    AdoptPromises(n, i, rs, h, rs', e, best, ms);
    forall j | 0 <= j < n && j != i ensures BaseOk(j, rs[j], h') {
      assert RepOk(n, j, rs[j], h);
    }
    AdvanceCore(n, i, rs, h, rs', h');
  }

  // A full house of responses is a ballot.
  lemma HaveBallot(n: nat, rs: seq<Replica>, h: History, i: nat)
    requires n > 0 && |rs| == n && i < n && ResponsesOk(n, rs, h, i)
    requires rs[i].electionRound > 0 && rs[i].electionRound !in h.rounds
    requires |rs[i].responses| >= Quorum(n)
    ensures Ballot(n, rs, h, rs[i].electionRound, BestOf(rs[i].responses), rs[i].responses)
    ensures PrepareOk(n, rs, h, BestOf(rs[i].responses))
  {
  }

  lemma AdoptResponses(n: nat, i: nat, rs: seq<Replica>, h: History, rs': seq<Replica>, h': History)
    requires n > 0 && |rs| == n && i < n && ResponsesOk(n, rs, h, i)
    requires |rs'| == n && ProbesGrow(rs, rs') && Grows(n, i, rs[i].probeRound, h, h')
    requires rs'[i].responses == rs[i].responses && rs'[i].electionRound == rs[i].electionRound
    requires |rs[i].responses| >= Quorum(n)
    ensures ResponsesOk(n, rs', h', i)
  {
    forall m | m in rs'[i].responses ensures PrepareOk(n, rs', h', m) {
      PrepareStable(n, i, rs, rs', h, h', m);
    }
  }

  // Everything about the history and the new leader, given the ballot.
  lemma AdoptLocal(n: nat, i: nat, rs: seq<Replica>, h: History, e: nat, best: Message,
                   ms: seq<Message>, r': Replica)
    requires CoreOk(n, rs, h) && i < n && RepOk(n, i, rs[i], h)
    requires e == rs[i].electionRound == rs[i].probeRound
    requires Ballot(n, rs, h, e, best, ms) && PrepareOk(n, rs, h, best)
    requires best.slot <= rs[i].applied && r' == Adopt(rs[i], best)
    ensures Grows(n, i, rs[i].probeRound, h, Adopting(h, i, e, best, ms))
    ensures RoundsOk(n, Adopting(h, i, e, best, ms)) && CommittedOk(n, Adopting(h, i, e, best, ms))
    ensures RepOk(n, i, r', Adopting(h, i, e, best, ms))
  {
    AdoptGrows(n, i, rs[i], h, e, best, ms);
    AdoptRounds(n, i, rs, h, e, best, ms);
    AdoptRep(n, i, rs[i], h, best, ms, r', Adopting(h, i, e, best, ms));
  }

  // Adopting, once caught up to the base of the best log.
  lemma AdoptMove(n: nat, i: nat, rs: seq<Replica>, h: History, rs': seq<Replica>,
                  ps: seq<Packet>, best: Message) returns (h': History)
    requires AllOk(n, rs, h, ps) && i < n
    requires rs[i].electionRound == rs[i].probeRound > 0 && rs[i].electionRound !in h.rounds
    requires |rs[i].responses| >= Quorum(n) && best == BestOf(rs[i].responses)
    requires best.slot <= rs[i].applied
    requires |rs'| == n && rs' == rs[i := Adopt(rs[i], best)]
    ensures AllOk(n, rs', h', ps)
    ensures h'.committed == h.committed && h'.proposed == h.proposed
    ensures Opens(h, h', rs[i].electionRound, rs[i].responses)
    ensures AccKept(h, h')
  {
    var r := rs[i];
    var e := r.electionRound;
    assert RepOk(n, i, r, h) && ResponsesOk(n, rs, h, i);
    HaveBallot(n, rs, h, i);
    h' := Adopting(h, i, e, best, r.responses);
    AdoptLocal(n, i, rs, h, e, best, r.responses, rs'[i]);
    GrowsKeeps(n, i, r.probeRound, h, h');
    AdoptCore(n, i, rs, h, rs', e, best, r.responses);
    AdoptMessages(n, i, rs, h, rs', h', ps);
    AdoptOpens(n, i, rs, h, e, best, r.responses);
  }

  lemma AdoptOpens(n: nat, i: nat, rs: seq<Replica>, h: History, e: nat, best: Message,
                   ms: seq<Message>)
    requires n > 0 && |rs| == n && i < |h.acc| && RoundsOk(n, h)
    requires Ballot(n, rs, h, e, best, ms) && best == BestOf(ms) && PrepareOk(n, rs, h, best)
    ensures Opens(h, Adopting(h, i, e, best, ms), e, ms)
  {
  }

  lemma AdoptMessages(n: nat, i: nat, rs: seq<Replica>, h: History, rs': seq<Replica>,
                      h': History, ps: seq<Packet>)
    requires n > 0 && |rs| == n && RepsOk(n, rs, h) && MessagesOk(n, rs, h, ps) && i < n
    requires |rs'| == n && rs' == rs[i := rs'[i]] && rs'[i].probeRound == rs[i].probeRound
    requires rs'[i].responses == rs[i].responses && rs'[i].electionRound == rs[i].electionRound
    requires |rs[i].responses| >= Quorum(n)
    requires Grows(n, i, rs[i].probeRound, h, h')
    requires forall q | q in h'.rounds && q !in h.rounds :: q % n == i
    ensures MessagesOk(n, rs', h', ps)
  {
    assert ResponsesOk(n, rs, h, i);
    assert ProbesGrow(rs, rs');
    AdoptResponses(n, i, rs, h, rs', h');
    AdvanceMessages(n, i, rs, h, rs', h', ps);
  }

  lemma CatchUpMove(n: nat, i: nat, rs: seq<Replica>, h: History, rs': seq<Replica>,
                    ps: seq<Packet>, t: nat)
    requires AllOk(n, rs, h, ps) && i < n && t <= h.base
    requires |rs'| == n && rs' == rs[i := CatchUp(rs[i], t)]
    ensures AllOk(n, rs', h, ps)
    ensures t <= rs'[i].applied
    ensures AppliedOnly(rs[i].(decided := Max(rs[i].decided, t)), rs'[i])
  {
    BaseHeld(n, rs, h, i);
    assert RepOk(n, i, rs[i], h);
    CatchUpOk(n, i, rs[i], h, t);
    LocalMove(n, i, rs, h, rs', ps);
  }
}

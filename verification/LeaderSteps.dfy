/** What a leader does: commit at the majority point, truncate what everyone has, append, propose. */
module LeaderSteps {
  import opened Common
  import opened TaskTypes
  import opened Quorums
  import opened ReplicaSpec
  import opened History
  import opened Evolution
  import opened LocalSteps
  import opened GlobalSteps

  // ---- committing ----

  // Whatever the sorted acknowledgements say is decided, really is.
  lemma CommitPointDecided(n: nat, rs: seq<Replica>, h: History, i: nat)
    requires n > 0 && |rs| == n && RoundsOk(n, h) && RepsOk(n, rs, h) && i < n
    requires rs[i].leader == i
    ensures DecidedBy(n, h, rs[i].ackRound, CommitPoint(rs[i].followerAck))
    ensures CommitPoint(rs[i].followerAck) <= End(rs[i])
  {
    var r := rs[i];
    assert RepOk(n, i, r, h);
    var m := CommitPoint(r.followerAck);
    CommitPointBound(r.followerAck, End(r));
    if m <= h.base {
      BaseHeld(n, rs, h, i);
      DecidedShorter(n, h, r.ackRound, h.base, m);
    } else {
      AcksAreAccepted(n, i, r, h, m);
      assert Chosen(n, h, r.ackRound, m);
    }
  }

  lemma AcksAreAccepted(n: nat, i: nat, r: Replica, h: History, m: nat)
    requires n > 0 && Shape(n, i, r) && LeaderOk(n, i, r, h) && r.leader == i
    requires m == CommitPoint(r.followerAck) && m > h.base
    ensures |Ackers(n, h.acc, r.ackRound, m)| >= Quorum(n)
  {
    CommitPointIsMajority(r.followerAck, m);
    SubsetCard(AtLeast(r.followerAck, m), Ackers(n, h.acc, r.ackRound, m));
  }

  // ---- truncating ----

  predicate BaseOnly(h: History, h': History) {
    h' == h.(base := h'.base, baseRound := h'.baseRound)
  }

  lemma BaseRep(n: nat, j: nat, r: Replica, h: History, h': History)
    requires RepOk(n, j, r, h) && BaseOnly(h, h') && h.base <= h'.base && BaseOk(j, r, h')
    ensures RepOk(n, j, r, h')
  {
    SameDecided(n, h, h', r.ackRound, r.decided);
    RepliesStable(n, j, h, h', r);
  }

  predicate AllBaseOk(n: nat, rs: seq<Replica>, h: History)
    requires |rs| == n
  {
    forall j {:trigger BaseOk(j, rs[j], h)} | 0 <= j < n :: BaseOk(j, rs[j], h)
  }

  lemma RaiseBaseCore(n: nat, rs: seq<Replica>, h: History, h': History)
    requires CoreOk(n, rs, h)
    requires BaseOnly(h, h') && h.base <= h'.base <= |h.committed| && AllBaseOk(n, rs, h')
    requires h'.baseRound in h.rounds
    ensures CoreOk(n, rs, h')
  {
    SameRounds(n, h, h');
    SameAckers(n, h, h', h.chosenRound, |h.committed|);
    forall j | 0 <= j < n ensures RepOk(n, j, rs[j], h') {
      assert RepOk(n, j, rs[j], h) && BaseOk(j, rs[j], h');
      BaseRep(n, j, rs[j], h, h');
    }
  }

  lemma RaiseBaseMessages(n: nat, rs: seq<Replica>, h: History, h': History, ps: seq<Packet>)
    requires n > 0 && |rs| == n && RepsOk(n, rs, h) && MessagesOk(n, rs, h, ps)
    requires BaseOnly(h, h') && h.base <= h'.base
    ensures MessagesOk(n, rs, h', ps)
  {
    assert RepOk(n, 0, rs[0], h) && ResponsesOk(n, rs, h, 0);
    assert Grows(n, 0, rs[0].probeRound, h, h');
    AdvanceQuietly(n, 0, rs, h, rs, h', ps);
  }

  // Everyone has acknowledged this leader up to t, so every replica's log keeps everything below t.
  lemma EveryoneAccepted(n: nat, rs: seq<Replica>, h: History, i: nat, t: nat)
    requires n > 0 && |rs| == n && RepsOk(n, rs, h) && i < n
    requires rs[i].leader == i && |rs[i].followerAck| > 0 && t == MinOf(rs[i].followerAck)
    requires t > h.base
    ensures forall j | 0 <= j < n ::
              rs[i].ackRound <= rs[j].ackRound && t <= Acc(h.acc, j, rs[i].ackRound)
  {
    var r := rs[i];
    assert RepOk(n, i, r, h);
    forall j | 0 <= j < n ensures r.ackRound <= rs[j].ackRound && t <= Acc(h.acc, j, r.ackRound) {
      assert r.followerAck[j] in r.followerAck;
      assert t <= Acc(h.acc, j, r.ackRound);
      assert RepOk(n, j, rs[j], h);
    }
  }

  lemma TruncateRaise(n: nat, rs: seq<Replica>, h: History, i: nat, t: nat, h': History)
    requires n > 0 && |rs| == n && RepsOk(n, rs, h) && i < n
    requires rs[i].leader == i && |rs[i].followerAck| > 0 && t == MinOf(rs[i].followerAck)
    requires t > h.base && h' == h.(base := t, baseRound := rs[i].ackRound)
    ensures AllBaseOk(n, rs, h')
  {
    EveryoneAccepted(n, rs, h, i, t);
    forall j | 0 <= j < n ensures BaseOk(j, rs[j], h') {
      assert RepOk(n, j, rs[j], h);
    }
  }

  lemma LeaderTruncates(n: nat, i: nat, rs: seq<Replica>, h: History, rs': seq<Replica>,
                        ps: seq<Packet>) returns (h': History)
    requires AllOk(n, rs, h, ps) && i < n
    requires rs[i].leader == i && |rs[i].followerAck| > 0
    requires MinOf(rs[i].followerAck) <= rs[i].applied
    requires |rs'| == n && rs' == rs[i := TryTruncate(rs[i])]
    ensures AllOk(n, rs', h', ps)
    ensures h'.committed == h.committed && h'.proposed == h.proposed
    ensures h'.rounds == h.rounds
    ensures h'.acc == h.acc
  {
    var t := MinOf(rs[i].followerAck);
    assert RepOk(n, i, rs[i], h);
    if t > h.base {
      h' := h.(base := t, baseRound := rs[i].ackRound);
      TruncateRaise(n, rs, h, i, t, h');
      RaiseBaseCore(n, rs, h, h');
      RaiseBaseMessages(n, rs, h, h', ps);
    } else {
      h' := h;
    }
    assert RepOk(n, i, rs[i], h');
    TruncateOk(n, i, rs[i], h', t);
    LocalMove(n, i, rs, h', rs', ps);
  }

  // ---- apply_decided ----

  // Applying what is decided, for any replica.
  lemma ApplyMove(n: nat, i: nat, rs: seq<Replica>, h: History, rs': seq<Replica>, ps: seq<Packet>)
    requires AllOk(n, rs, h, ps) && i < n
    requires |rs'| == n && rs' == rs[i := ApplyTo(rs[i], rs[i].decided, true)]
    ensures AllOk(n, rs', h, ps)
    ensures rs'[i].applied == rs[i].decided && AppliedOnly(rs[i], rs'[i])
  {
    assert RepOk(n, i, rs[i], h);
    ApplyToOk(n, i, rs[i], h, rs[i].decided, true);
    LocalMove(n, i, rs, h, rs', ps);
  }

  lemma LeaderDecides(n: nat, i: nat, rs: seq<Replica>, h: History, rs': seq<Replica>,
                      ps: seq<Packet>) returns (h': History)
    requires AllOk(n, rs, h, ps) && i < n && rs[i].leader == i
    requires |rs'| == n && rs' == rs[i := TryDecide(rs[i])]
    ensures AllOk(n, rs', h', ps)
    ensures h.committed <= h'.committed && h'.proposed == h.proposed
    ensures h'.rounds == h.rounds
    ensures h'.acc == h.acc
  {
    CommitPointDecided(n, rs, h, i);
    h' := LearnAndCommit(n, i, rs, h, rs', ps, CommitPoint(rs[i].followerAck));
  }

  lemma LeaderApplies(n: nat, i: nat, rs: seq<Replica>, h: History, rs': seq<Replica>,
                      ps: seq<Packet>) returns (h': History)
    requires AllOk(n, rs, h, ps) && i < n && rs[i].leader == i && rs[i].index == i
    requires |rs[i].followerAck| > 0
    requires |rs'| == n && rs' == rs[i := ApplyDecided(rs[i])]
    ensures AllOk(n, rs', h', ps)
    ensures h.committed <= h'.committed && h'.proposed == h.proposed
    ensures h'.rounds == h.rounds
    ensures h'.acc == h.acc
  {
    MinBelowCommitPoint(rs[i].followerAck);
    var r1 := TryDecide(rs[i]);
    var rs1 := rs[i := r1];
    var h1 := LeaderDecides(n, i, rs, h, rs1, ps);
    var rs2 := rs[i := ApplyTo(r1, r1.decided, true)];
    assert rs2 == rs1[i := rs2[i]];
    ApplyMove(n, i, rs1, h1, rs2, ps);
    assert rs' == rs2[i := TryTruncate(rs2[i])];
    h' := LeaderTruncates(n, i, rs2, h1, rs', ps);
  }

  // A follower's acknowledgements never decide anything new.
  lemma FollowerApplies(n: nat, i: nat, rs: seq<Replica>, h: History, rs': seq<Replica>,
                        ps: seq<Packet>)
    requires AllOk(n, rs, h, ps) && i < n && rs[i].leader != i
    requires CommitPoint(rs[i].followerAck) <= rs[i].decided
    requires |rs'| == n && rs' == rs[i := ApplyDecided(rs[i])]
    ensures AllOk(n, rs', h, ps)
    ensures AppliedOnly(rs[i], rs'[i])
  {
    assert RepOk(n, i, rs[i], h);
    assert TryDecide(rs[i]) == rs[i];
    ApplyMove(n, i, rs, h, rs[i := ApplyTo(rs[i], rs[i].decided, true)], ps);
  }

  // ---- acknowledgements ----

  lemma RecordAckMove(n: nat, i: nat, rs: seq<Replica>, h: History, rs': seq<Replica>,
                      ps: seq<Packet>, m: Message)
    requires AllOk(n, rs, h, ps) && i < n && rs[i].leader == i
    requires PacketOk(n, rs, h, Packet(i, m))
    requires |rs'| == n && rs' == rs[i := RecordAck(rs[i], m)]
    ensures AllOk(n, rs', h, ps)
  {
    var r := rs[i];
    assert RepOk(n, i, r, h);
    if m.kind == Ack && m.round == r.probeRound {
      AckWithinLog(n, h, m);
      assert LeaderOk(n, i, rs'[i], h);
    }
    LocalMove(n, i, rs, h, rs', ps);
  }

  lemma AckWithinLog(n: nat, h: History, m: Message)
    requires RoundsOk(n, h) && m.ackSlot <= Acc(h.acc, m.sender, m.round) && m.round in h.rounds
    ensures m.ackSlot <= |h.rounds[m.round].log|
  {
    assert Acc(h.acc, m.sender, m.round) > 0 || m.ackSlot == 0;
  }

  // ---- appending ----

  // A round's log got one value longer.
  predicate Extends(h: History, h': History, q: nat, v: DecidedValue) {
    && q in h.rounds
    && h'.rounds == h.rounds[q := h.rounds[q].(log := h.rounds[q].log + [v])]
  }

  function Appending(h: History, i: nat, q: nat, v: DecidedValue): History
    requires q in h.rounds && i < |h.acc|
  {
    var e := h.rounds[q];
    h.(rounds := h.rounds[q := e.(log := e.log + [v])],
       acc := h.acc[i := h.acc[i][q := |e.log| + 1]],
       proposed := h.proposed + {v})
  }

  lemma AppendGrows(n: nat, i: nat, r: Replica, h: History, v: DecidedValue)
    requires n > 0 && RepOk(n, i, r, h) && r.leader == i
    ensures Grows(n, i, r.probeRound, h, Appending(h, i, r.ackRound, v))
  {
  }

  lemma AppendHistory(n: nat, i: nat, rs: seq<Replica>, h: History, v: DecidedValue)
    requires CoreOk(n, rs, h) && i < n && rs[i].leader == i && rs[i].ackRound in h.rounds
    requires Grows(n, i, rs[i].probeRound, h, Appending(h, i, rs[i].ackRound, v))
    ensures RoundsOk(n, Appending(h, i, rs[i].ackRound, v))
    ensures CommittedOk(n, Appending(h, i, rs[i].ackRound, v))
  {
    var h' := Appending(h, i, rs[i].ackRound, v);
    assert RepOk(n, i, rs[i], h);
    forall q | q in h'.rounds ensures RoundOk(n, h', q) {
      assert RoundOk(n, h, q);
      RoundStable(n, i, rs, h, h', q);
    }
    forall j, q | Acc(h'.acc, j, q) > 0
      ensures q in h'.rounds && Acc(h'.acc, j, q) <= |h'.rounds[q].log| {
      AccMonotone(n, i, rs[i].probeRound, h, h', j, q);
      assert Acc(h'.acc, j, q) == Acc(h.acc, j, q) || (j == i && q == rs[i].ackRound);
    }
    ChosenStable(n, i, rs[i].probeRound, h, h', h.chosenRound, |h.committed|);
  }

  lemma AppendRep(n: nat, i: nat, r: Replica, h: History, t: Ticket)
    requires n > 0 && RepOk(n, i, r, h) && r.leader == i && t.round == r.probeRound
    requires Grows(n, i, r.probeRound, h, Appending(h, i, r.ackRound, t.value))
    ensures RepOk(n, i, Append(r, t), Appending(h, i, r.ackRound, t.value))
  {
    var h' := Appending(h, i, r.ackRound, t.value);
    var r' := Append(r, t);
    var log := h.rounds[r.ackRound].log;
    DecidedStable(n, i, r.probeRound, h, h', r.ackRound, r.decided);
    assert r'.log == (log + [t.value])[r.logBase..End(r')];
    assert (log + [t.value])[..r.applied] == log[..r.applied];
    AppendLeader(n, i, r, h, t);
    AppendPending(n, i, r, h, t);
    RepliesStable(n, i, h, h', r);
  }

  lemma AppendLeader(n: nat, i: nat, r: Replica, h: History, t: Ticket)
    requires n > 0 && RepOk(n, i, r, h) && r.leader == i
    requires Grows(n, i, r.probeRound, h, Appending(h, i, r.ackRound, t.value))
    ensures LeaderOk(n, i, Append(r, t), Appending(h, i, r.ackRound, t.value))
  {
    var h' := Appending(h, i, r.ackRound, t.value);
    forall j | 0 <= j < n ensures Acc(h.acc, j, r.probeRound) <= Acc(h'.acc, j, r.probeRound) {
      AccMonotone(n, i, r.probeRound, h, h', j, r.probeRound);
    }
  }

  lemma AppendPending(n: nat, i: nat, r: Replica, h: History, t: Ticket)
    requires n > 0 && RepOk(n, i, r, h) && r.leader == i && t.round == r.probeRound
    requires RoundsGrow(n, i, h, Appending(h, i, r.ackRound, t.value))
    ensures PendingOk(Append(r, t), Appending(h, i, r.ackRound, t.value))
  {
    PendingStable(n, i, h, Appending(h, i, r.ackRound, t.value), r);
  }

  lemma AppendMove(n: nat, i: nat, rs: seq<Replica>, h: History, rs': seq<Replica>,
                   ps: seq<Packet>, t: Ticket) returns (h': History)
    requires AllOk(n, rs, h, ps) && i < n && rs[i].leader == i && t.round == rs[i].probeRound
    requires |rs'| == n && rs' == rs[i := Append(rs[i], t)]
    ensures AllOk(n, rs', h', ps)
    ensures h'.committed == h.committed && h'.proposed == h.proposed + {t.value}
    ensures Extends(h, h', t.round, t.value)
    ensures AccKept(h, h')
  {
    assert RepOk(n, i, rs[i], h);
    h' := Appending(h, i, rs[i].ackRound, t.value);
    AppendGrows(n, i, rs[i], h, t.value);
    GrowsKeeps(n, i, rs[i].probeRound, h, h');
    AppendRep(n, i, rs[i], h, t);
    AppendCore(n, i, rs, h, rs', t);
    AdvanceQuietly(n, i, rs, h, rs', h', ps);
  }

  lemma AppendCore(n: nat, i: nat, rs: seq<Replica>, h: History, rs': seq<Replica>, t: Ticket)
    requires CoreOk(n, rs, h) && i < n && rs[i].leader == i
    requires |rs'| == n && rs' == rs[i := Append(rs[i], t)]
    requires rs[i].ackRound in h.rounds
    requires Grows(n, i, rs[i].probeRound, h, Appending(h, i, rs[i].ackRound, t.value))
    requires RepOk(n, i, rs'[i], Appending(h, i, rs[i].ackRound, t.value))
    ensures CoreOk(n, rs', Appending(h, i, rs[i].ackRound, t.value))
  {
    var h' := Appending(h, i, rs[i].ackRound, t.value);
    AppendHistory(n, i, rs, h, t.value);
    AppendPromises(n, i, rs, h, rs', t.value);
    forall j | 0 <= j < n && j != i ensures BaseOk(j, rs[j], h') {
      assert RepOk(n, j, rs[j], h);
    }
    AdvanceCore(n, i, rs, h, rs', h');
  }

  lemma AppendPromises(n: nat, i: nat, rs: seq<Replica>, h: History, rs': seq<Replica>,
                       v: DecidedValue)
    requires CoreOk(n, rs, h) && i < n && rs[i].ackRound in h.rounds
    requires |rs'| == n && rs' == rs[i := rs'[i]] && rs'[i].probeRound == rs[i].probeRound
    ensures OwnedOk(n, rs', Appending(h, i, rs[i].ackRound, v).rounds)
    ensures PromisesOk(n, rs', Appending(h, i, rs[i].ackRound, v).rounds)
  {
    var h' := Appending(h, i, rs[i].ackRound, v);
    forall q | q in h'.rounds ensures Reached(n, rs', q) {
      assert Reached(n, rs, q);
    }
  }

  // ---- proposing ----

  lemma ProposeSound(n: nat, rs: seq<Replica>, h: History, i: nat, j: nat)
    requires n > 0 && |rs| == n && i < n && j < n && j != i
    requires RepOk(n, i, rs[i], h) && rs[i].leader == i
    ensures PacketOk(n, rs, h, Packet(j, ProposeFor(rs[i], j)))
  {
    var r := rs[i];
    var m := ProposeFor(r, j);
    assert m.values == h.rounds[m.round].log[m.slot..End(r)];
  }

  lemma {:induction false} BroadcastSound(n: nat, rs: seq<Replica>, h: History, i: nat, k: nat)
    requires n > 0 && |rs| == n && i < n && k <= n
    requires RepOk(n, i, rs[i], h) && rs[i].leader == i
    ensures PacketsOk(n, rs, h, ProposeBelow(rs[i], k))
  {
    if k == 0 {
    } else {
      BroadcastSound(n, rs, h, i, k - 1);
      if k - 1 != i {
        ProposeSound(n, rs, h, i, k - 1);
      }
      forall p | p in ProposeBelow(rs[i], k) ensures PacketOk(n, rs, h, p) {
        if p in ProposeBelow(rs[i], k - 1) {
        }
      }
    }
  }
}

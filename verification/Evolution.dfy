/** How the history may grow in one step of one replica, and that everything known about the
    other replicas and about packets already sent survives it. */
module Evolution {
  import opened Common
  import opened TaskTypes
  import opened Quorums
  import opened ReplicaSpec
  import opened History

  predicate RoundsGrow(n: nat, i: nat, h: History, h': History)
    requires n > 0
  {
    forall q | q in h.rounds ::
      && q in h'.rounds
      && h.rounds[q].log <= h'.rounds[q].log
      && h'.rounds[q].src == h.rounds[q].src
      && h'.rounds[q].adopt == h.rounds[q].adopt
      && h'.rounds[q].quorum == h.rounds[q].quorum
      && (q % n != i ==> h'.rounds[q].log == h.rounds[q].log)
  }

  // Only replica i's reach changes, only upwards, and only in rounds it has not promised away.
  ghost predicate AccGrow(i: nat, from: nat, h: History, h': History) {
    && |h'.acc| == |h.acc|
    && (forall j | 0 <= j < |h.acc| && j != i :: h'.acc[j] == h.acc[j])
    && (forall q :: Acc(h.acc, i, q) <= Acc(h'.acc, i, q))
    && (forall q :: Acc(h.acc, i, q) != Acc(h'.acc, i, q) ==> from <= q)
    && (i < |h.acc| ==> forall q | q in h'.acc[i] :: q in h.acc[i] || from <= q)
  }

  ghost predicate Grows(n: nat, i: nat, from: nat, h: History, h': History)
    requires n > 0
  {
    && RoundsGrow(n, i, h, h')
    && AccGrow(i, from, h, h')
    && h.base <= h'.base
    && h.committed <= h'.committed
    && h.proposed <= h'.proposed
  }

  lemma AccMonotone(n: nat, i: nat, from: nat, h: History, h': History, j: nat, q: nat)
    requires n > 0 && Grows(n, i, from, h, h')
    ensures Acc(h.acc, j, q) <= Acc(h'.acc, j, q)
    ensures Acc(h.acc, j, q) != Acc(h'.acc, j, q) ==> j == i && from <= q
  {
  }

  lemma GrowsKeeps(n: nat, i: nat, from: nat, h: History, h': History)
    requires n > 0 && Grows(n, i, from, h, h')
    ensures AccKept(h, h')
  {
    forall j, q ensures Acc(h.acc, j, q) <= Acc(h'.acc, j, q) {
      AccMonotone(n, i, from, h, h', j, q);
    }
  }

  lemma ChosenStable(n: nat, i: nat, from: nat, h: History, h': History, q: nat, s: nat)
    requires n > 0 && Grows(n, i, from, h, h') && Chosen(n, h, q, s)
    ensures Chosen(n, h', q, s)
  {
    forall j | j in Ackers(n, h.acc, q, s) ensures j in Ackers(n, h'.acc, q, s) {
      AccMonotone(n, i, from, h, h', j, q);
    }
    SubsetCard(Ackers(n, h.acc, q, s), Ackers(n, h'.acc, q, s));
  }

  lemma DecidedStable(n: nat, i: nat, from: nat, h: History, h': History, r: nat, d: nat)
    requires n > 0 && Grows(n, i, from, h, h') && DecidedBy(n, h, r, d)
    ensures DecidedBy(n, h', r, d)
  {
    var q :| q in h.rounds && q <= r && Chosen(n, h, q, d);
    ChosenStable(n, i, from, h, h', q, d);
  }

  // A replica that did not move keeps everything, given that the truncation mark is still right for it.
  lemma OtherStable(n: nat, i: nat, from: nat, h: History, h': History, j: nat, r: Replica)
    requires n > 0 && Grows(n, i, from, h, h') && j != i
    requires RepOk(n, j, r, h) && BaseOk(j, r, h')
    ensures RepOk(n, j, r, h')
  {
    var q := r.ackRound;
    DecidedStable(n, i, from, h, h', q, r.decided);
    assert LogOk(n, j, r, h') && DbOk(r, h') by {
      var e := h.rounds[q].log;
      var e' := h'.rounds[q].log;
      assert e'[r.logBase..End(r)] == e[r.logBase..End(r)];
      assert e'[..r.applied] == e[..r.applied];
    }
    OtherLeaderStable(n, i, from, h, h', j, r);
    PendingStable(n, i, h, h', r);
    RepliesStable(n, i, h, h', r);
  }

  lemma OtherLeaderStable(n: nat, i: nat, from: nat, h: History, h': History, j: nat, r: Replica)
    requires n > 0 && Grows(n, i, from, h, h') && j != i
    requires LeaderOk(n, j, r, h)
    ensures LeaderOk(n, j, r, h')
  {
    if r.leader == j {
      forall k | 0 <= k < n
        ensures r.followerAck[k] <= Max(Acc(h'.acc, k, r.probeRound), h'.base)
      {
        AccMonotone(n, i, from, h, h', k, r.probeRound);
      }
    }
  }

  lemma PendingStable(n: nat, i: nat, h: History, h': History, r: Replica)
    requires n > 0 && RoundsGrow(n, i, h, h') && PendingOk(r, h)
    ensures PendingOk(r, h')
  {
  }

  lemma RepliesStable(n: nat, i: nat, h: History, h': History, r: Replica)
    requires n > 0 && RoundsGrow(n, i, h, h') && h.committed <= h'.committed && RepliesOk(r, h)
    ensures RepliesOk(r, h')
  {
    forall p | p in r.replies ensures ReplyOk(p, h') {
      assert ReplyOk(p, h);
      assert h.committed[..p.slot] == h'.committed[..p.slot];
    }
  }

  // ---- messages ----

  // Replicas only ever raise the round they have promised.
  predicate ProbesGrow(rs: seq<Replica>, rs': seq<Replica>) {
    && |rs| == |rs'|
    && (forall j | 0 <= j < |rs| :: rs[j].probeRound <= rs'[j].probeRound)
  }

  lemma PrepareStable(n: nat, i: nat, rs: seq<Replica>, rs': seq<Replica>,
                      h: History, h': History, m: Message)
    requires n > 0 && |rs| == n && i < n && ProbesGrow(rs, rs')
    requires Grows(n, i, rs[i].probeRound, h, h')
    requires PrepareOk(n, rs, h, m)
    ensures PrepareOk(n, rs', h', m)
  {
    var e := h.rounds[m.ackRound].log;
    var e' := h'.rounds[m.ackRound].log;
    assert e[m.slot..m.ackSlot] == e'[m.slot..m.ackSlot];
    if m.ackRound < m.round {
      AccMonotone(n, i, rs[i].probeRound, h, h', m.sender, m.ackRound);
      NoneStable(n, i, rs[i].probeRound, h, h', m.sender, m.ackRound, m.round);
    }
  }

  lemma NoneStable(n: nat, i: nat, from: nat, h: History, h': History, j: nat, lo: nat, hi: nat)
    requires n > 0 && Grows(n, i, from, h, h') && NoneBetween(h, j, lo, hi)
    requires j == i ==> hi <= from
    ensures NoneBetween(h', j, lo, hi)
  {
    forall t | t in h'.acc[j] && lo < t < hi ensures h'.acc[j][t] == 0 {
      AccMonotone(n, i, from, h, h', j, t);
    }
  }

  lemma ProposeStable(n: nat, i: nat, from: nat, h: History, h': History, dst: nat, m: Message)
    requires n > 0 && Grows(n, i, from, h, h') && ProposeOk(n, h, dst, m)
    ensures ProposeOk(n, h', dst, m)
  {
    var end := m.slot + |m.values|;
    assert h.rounds[m.round].log[m.slot..end] == h'.rounds[m.round].log[m.slot..end];
    AccMonotone(n, i, from, h, h', dst, m.round);
    DecidedStable(n, i, from, h, h', m.round, m.decidedSlot);
  }

  lemma PacketStable(n: nat, i: nat, rs: seq<Replica>, rs': seq<Replica>,
                     h: History, h': History, p: Packet)
    requires n > 0 && |rs| == n && i < n && ProbesGrow(rs, rs')
    requires Grows(n, i, rs[i].probeRound, h, h')
    requires PacketOk(n, rs, h, p)
    ensures PacketOk(n, rs', h', p)
  {
    var m := p.msg;
    match m.kind
    case Probe =>
    case Prepare => PrepareStable(n, i, rs, rs', h, h', m);
    case Ack => AccMonotone(n, i, rs[i].probeRound, h, h', m.sender, m.round);
    case Propose => ProposeStable(n, i, rs[i].probeRound, h, h', p.dst, m);
  }

  lemma PacketsStable(n: nat, i: nat, rs: seq<Replica>, rs': seq<Replica>,
                      h: History, h': History, ps: seq<Packet>)
    requires n > 0 && |rs| == n && i < n && ProbesGrow(rs, rs')
    requires Grows(n, i, rs[i].probeRound, h, h')
    requires PacketsOk(n, rs, h, ps)
    ensures PacketsOk(n, rs', h', ps)
  {
    forall p | p in ps ensures PacketOk(n, rs', h', p) {
      PacketStable(n, i, rs, rs', h, h', p);
    }
  }

  // ---- rounds ----

  // A round already led stays well-formed.
  lemma RoundStable(n: nat, i: nat, rs: seq<Replica>, h: History, h': History, q: nat)
    requires n > 0 && |rs| == n && i < n
    requires q in h.rounds && RoundOk(n, h, q) && PromisesOk(n, rs, h.rounds)
    requires Grows(n, i, rs[i].probeRound, h, h')
    requires forall v | v in h'.rounds[q].log :: v in h'.proposed
    ensures RoundOk(n, h', q)
  {
    if q > 0 {
      var e := h.rounds[q];
      var e' := h'.rounds[q];
      assert e'.log[..e.adopt] == e.log[..e.adopt];
      assert h'.rounds[e.src].log[..e.adopt] == h.rounds[e.src].log[..e.adopt];
      forall j, t | j in e.quorum && e.src <= t < q ensures Acc(h'.acc, j, t) == Acc(h.acc, j, t) {
        assert j in Below(n);
        AccMonotone(n, i, rs[i].probeRound, h, h', j, t);
      }
    }
  }

  // ---- the whole step ----

  predicate OthersBaseOk(n: nat, i: nat, rs: seq<Replica>, h: History)
    requires |rs| == n
  {
    forall j | 0 <= j < n && j != i :: BaseOk(j, rs[j], h)
  }

  // Replica i moves to rs'[i]. What must be shown is only about i and about what is new.
  lemma AdvanceCore(n: nat, i: nat, rs: seq<Replica>, h: History, rs': seq<Replica>, h': History)
    requires CoreOk(n, rs, h) && i < n
    requires |rs'| == n && rs' == rs[i := rs'[i]]
    requires Grows(n, i, rs[i].probeRound, h, h')
    requires HistoryOk(n, rs', h')
    requires RepOk(n, i, rs'[i], h')
    requires OthersBaseOk(n, i, rs, h')
    ensures CoreOk(n, rs', h')
  {
    OthersStable(n, i, rs, h, rs', h');
  }

  lemma AdvanceMessages(n: nat, i: nat, rs: seq<Replica>, h: History,
                        rs': seq<Replica>, h': History, ps: seq<Packet>)
    requires n > 0 && |rs| == n && RepsOk(n, rs, h) && MessagesOk(n, rs, h, ps) && i < n
    requires |rs'| == n && rs' == rs[i := rs'[i]]
    requires rs[i].probeRound <= rs'[i].probeRound
    requires Grows(n, i, rs[i].probeRound, h, h')
    requires ResponsesOk(n, rs', h', i)
    requires forall q | q in h'.rounds && q !in h.rounds :: q % n == i
    ensures MessagesOk(n, rs', h', ps)
  {
    assert ProbesGrow(rs, rs');
    PacketsStable(n, i, rs, rs', h, h', ps);
    OthersResponses(n, i, rs, h, rs', h');
  }

  // The common case: no new round, and the replica's own election is untouched.
  lemma AdvanceQuietly(n: nat, i: nat, rs: seq<Replica>, h: History,
                       rs': seq<Replica>, h': History, ps: seq<Packet>)
    requires n > 0 && |rs| == n && RepsOk(n, rs, h) && MessagesOk(n, rs, h, ps) && i < n
    requires |rs'| == n && rs' == rs[i := rs'[i]]
    requires rs[i].probeRound <= rs'[i].probeRound
    requires rs'[i].responses == rs[i].responses && rs'[i].electionRound == rs[i].electionRound
    requires Grows(n, i, rs[i].probeRound, h, h')
    requires h'.rounds.Keys == h.rounds.Keys
    ensures MessagesOk(n, rs', h', ps)
  {
    assert RepOk(n, i, rs[i], h) && ResponsesOk(n, rs, h, i);
    ResponsesStable(n, i, rs, rs', h, h', i);
    AdvanceMessages(n, i, rs, h, rs', h', ps);
  }

  lemma OthersStable(n: nat, i: nat, rs: seq<Replica>, h: History, rs': seq<Replica>, h': History)
    requires n > 0 && |rs| == n && RepsOk(n, rs, h) && i < n
    requires |rs'| == n && rs' == rs[i := rs'[i]]
    requires Grows(n, i, rs[i].probeRound, h, h')
    requires RepOk(n, i, rs'[i], h')
    requires OthersBaseOk(n, i, rs, h')
    ensures RepsOk(n, rs', h')
  {
    forall j | 0 <= j < n ensures RepOk(n, j, rs'[j], h') {
      if j != i {
        OtherStable(n, i, rs[i].probeRound, h, h', j, rs[j]);
      }
    }
  }

  lemma OthersResponses(n: nat, i: nat, rs: seq<Replica>, h: History,
                        rs': seq<Replica>, h': History)
    requires n > 0 && |rs| == n && RepsOk(n, rs, h) && AllResponsesOk(n, rs, h) && i < n
    requires |rs'| == n && rs' == rs[i := rs'[i]]
    requires ProbesGrow(rs, rs')
    requires Grows(n, i, rs[i].probeRound, h, h')
    requires ResponsesOk(n, rs', h', i)
    requires forall q | q in h'.rounds && q !in h.rounds :: q % n == i
    ensures AllResponsesOk(n, rs', h')
  {
    forall j | 0 <= j < n ensures ResponsesOk(n, rs', h', j) {
      if j != i {
        assert RepOk(n, j, rs[j], h);
        ResponsesStable(n, i, rs, rs', h, h', j);
      }
    }
  }

  lemma ResponsesStable(n: nat, i: nat, rs: seq<Replica>, rs': seq<Replica>,
                        h: History, h': History, j: nat)
    requires n > 0 && |rs| == n && i < n && j < n && ProbesGrow(rs, rs')
    requires rs'[j].responses == rs[j].responses && rs'[j].electionRound == rs[j].electionRound
    requires Grows(n, i, rs[i].probeRound, h, h')
    requires ResponsesOk(n, rs, h, j)
    requires rs[j].electionRound in h'.rounds && rs[j].electionRound > 0
             ==> rs[j].electionRound in h.rounds || |rs[j].responses| >= Quorum(n)
                 || rs[j].electionRound % n != j
    requires rs[j].electionRound > 0 ==> rs[j].electionRound % n == j
    ensures ResponsesOk(n, rs', h', j)
  {
    forall m | m in rs'[j].responses ensures PrepareOk(n, rs', h', m) {
      PrepareStable(n, i, rs, rs', h, h', m);
    }
  }
}

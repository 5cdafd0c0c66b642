/** Moves of one replica inside the cluster, each keeping the whole invariant; those that extend
    a log, accept one, commit or truncate return the history they grow. */
module GlobalSteps {
  import opened Common
  import opened TaskTypes
  import opened Quorums
  import opened ReplicaSpec
  import opened History
  import opened Evolution
  import opened LocalSteps

  // ---- moves that leave the history alone ----

  lemma GrowsRefl(n: nat, i: nat, from: nat, h: History)
    requires n > 0
    ensures Grows(n, i, from, h, h)
  {
  }

  lemma HistoryUpdate(n: nat, i: nat, rs: seq<Replica>, h: History, rs': seq<Replica>)
    requires n > 0 && |rs| == n && HistoryOk(n, rs, h) && i < n
    requires |rs'| == n && rs' == rs[i := rs'[i]]
    requires rs[i].probeRound <= rs'[i].probeRound
    ensures HistoryOk(n, rs', h)
  {
    ReachedStays(n, rs, rs', h.rounds);
    assert ProbesGrow(rs, rs');
  }

  lemma ReachedStays(n: nat, rs: seq<Replica>, rs': seq<Replica>, rounds: map<nat, Round>)
    requires n > 0 && |rs| == n && ProbesGrow(rs, rs') && OwnedOk(n, rs, rounds)
    ensures OwnedOk(n, rs', rounds)
  {
    forall q | q in rounds ensures Reached(n, rs', q) {
      assert Reached(n, rs, q);
    }
  }

  lemma LocalCore(n: nat, i: nat, rs: seq<Replica>, h: History, rs': seq<Replica>)
    requires CoreOk(n, rs, h) && i < n
    requires |rs'| == n && rs' == rs[i := rs'[i]]
    requires rs[i].probeRound <= rs'[i].probeRound
    requires RepOk(n, i, rs'[i], h)
    ensures CoreOk(n, rs', h)
  {
    HistoryUpdate(n, i, rs, h, rs');
    RepsUpdate(n, i, rs, h, rs');
  }

  lemma RepsUpdate(n: nat, i: nat, rs: seq<Replica>, h: History, rs': seq<Replica>)
    requires |rs| == n && RepsOk(n, rs, h) && i < n
    requires |rs'| == n && rs' == rs[i := rs'[i]]
    requires RepOk(n, i, rs'[i], h)
    ensures RepsOk(n, rs', h)
  {
    forall j | 0 <= j < n ensures RepOk(n, j, rs'[j], h) {
      assert j != i ==> rs'[j] == rs[j];
      assert RepOk(n, j, rs[j], h);
    }
  }

  lemma LocalMove(n: nat, i: nat, rs: seq<Replica>, h: History, rs': seq<Replica>, ps: seq<Packet>)
    requires AllOk(n, rs, h, ps) && i < n
    requires |rs'| == n && rs' == rs[i := rs'[i]]
    requires rs[i].probeRound <= rs'[i].probeRound
    requires RepOk(n, i, rs'[i], h)
    requires rs'[i].responses == rs[i].responses && rs'[i].electionRound == rs[i].electionRound
    ensures AllOk(n, rs', h, ps)
  {
    LocalCore(n, i, rs, h, rs');
    GrowsRefl(n, i, rs[i].probeRound, h);
    AdvanceQuietly(n, i, rs, h, rs', h, ps);
  }

  // ---- committing ----

  function Committing(h: History, r: nat, d: nat, q: nat): History
    requires r in h.rounds && d <= |h.rounds[r].log|
  {
    if d <= |h.committed| then h
    else h.(committed := h.rounds[r].log[..d], chosenRound := q)
  }

  // A longer chosen prefix extends the committed sequence.
  lemma CommittingGrows(n: nat, i: nat, from: nat, h: History, r: nat, d: nat)
    returns (h': History)
    requires n > 0 && RoundsOk(n, h) && CommittedOk(n, h) && r in h.rounds
    requires DecidedBy(n, h, r, d)
    ensures d <= |h.rounds[r].log|
    ensures h' == h.(committed := h'.committed, chosenRound := h'.chosenRound)
    ensures Grows(n, i, from, h, h') && CommittedOk(n, h') && d <= |h'.committed|
  {
    var q := DecidedPrefix(n, h, r, d);
    h' := Committing(h, r, d, q);
    if d > |h.committed| {
      ChosenAgree(n, h, h.chosenRound, |h.committed|, q, d);
      assert h.rounds[q].log[..d][..|h.committed|] == h.rounds[q].log[..|h.committed|];
      assert h.committed == h.rounds[h.chosenRound].log[..|h.committed|];
      assert h'.committed == h.rounds[q].log[..d];
      SameAckers(n, h, h', q, d);
    }
  }

  lemma SameAckers(n: nat, h: History, h': History, q: nat, d: nat)
    requires h'.acc == h.acc && h'.rounds == h.rounds && Chosen(n, h, q, d)
    ensures Chosen(n, h', q, d)
  {
    assert Ackers(n, h'.acc, q, d) == Ackers(n, h.acc, q, d);
  }

  lemma SameRounds(n: nat, h: History, h': History)
    requires RoundsOk(n, h)
    requires h'.acc == h.acc && h'.rounds == h.rounds && h'.proposed == h.proposed
    requires h'.baseRound in h.rounds
    ensures RoundsOk(n, h')
  {
    forall q | q in h'.rounds ensures RoundOk(n, h', q) {
      assert RoundOk(n, h, q);
    }
  }

  lemma SameDecided(n: nat, h: History, h': History, r: nat, d: nat)
    requires h'.acc == h.acc && h'.rounds == h.rounds && DecidedBy(n, h, r, d)
    ensures DecidedBy(n, h', r, d)
  {
    var q :| q in h.rounds && q <= r && Chosen(n, h, q, d);
    SameAckers(n, h, h', q, d);
  }

  // The replica itself after the committed sequence grew.
  lemma CommittedRep(n: nat, i: nat, r: Replica, h: History, h': History)
    requires RepOk(n, i, r, h) && h.committed <= h'.committed
    requires h' == h.(committed := h'.committed, chosenRound := h'.chosenRound)
    ensures RepOk(n, i, r, h')
  {
    RepliesStable(n, i, h, h', r);
    SameDecided(n, h, h', r.ackRound, r.decided);
  }

  // A history that differs from h in its committed sequence only.
  predicate CommitOnly(h: History, h': History) {
    h' == h.(committed := h'.committed, chosenRound := h'.chosenRound)
  }

  lemma CommitReps(n: nat, rs: seq<Replica>, h: History, h': History)
    requires |rs| == n && RepsOk(n, rs, h)
    requires CommitOnly(h, h') && h.committed <= h'.committed
    ensures RepsOk(n, rs, h')
  {
    forall j | 0 <= j < n ensures RepOk(n, j, rs[j], h') {
      assert RepOk(n, j, rs[j], h);
      CommittedRep(n, j, rs[j], h, h');
    }
  }

  lemma CommitHistory(n: nat, rs: seq<Replica>, h: History, h': History)
    requires n > 0 && |rs| == n && HistoryOk(n, rs, h)
    requires CommitOnly(h, h') && CommittedOk(n, h')
    ensures HistoryOk(n, rs, h')
  {
    SameRounds(n, h, h');
  }

  lemma CommitMessages(n: nat, rs: seq<Replica>, h: History, h': History, ps: seq<Packet>)
    requires n > 0 && |rs| == n && RepsOk(n, rs, h) && MessagesOk(n, rs, h, ps)
    requires CommitOnly(h, h') && h.committed <= h'.committed
    ensures MessagesOk(n, rs, h', ps)
  {
    assert RepOk(n, 0, rs[0], h) && ResponsesOk(n, rs, h, 0);
    assert Grows(n, 0, rs[0].probeRound, h, h');
    AdvanceQuietly(n, 0, rs, h, rs, h', ps);
  }

  lemma Commit(n: nat, rs: seq<Replica>, h: History, h': History, ps: seq<Packet>)
    requires AllOk(n, rs, h, ps)
    requires CommitOnly(h, h') && h.committed <= h'.committed && CommittedOk(n, h')
    ensures AllOk(n, rs, h', ps)
  {
    CommitReps(n, rs, h, h');
    CommitHistory(n, rs, h, h');
    CommitMessages(n, rs, h, h', ps);
  }

  // Deciding up to d, for the replica alone.
  lemma LearnRep(n: nat, i: nat, r: Replica, h: History, d: nat) returns (h': History)
    requires n > 0 && RoundsOk(n, h) && CommittedOk(n, h) && RepOk(n, i, r, h)
    requires DecidedBy(n, h, r.ackRound, d) && d <= End(r)
    ensures CommitOnly(h, h') && h.committed <= h'.committed && CommittedOk(n, h')
    ensures RepOk(n, i, r.(decided := Max(r.decided, d)), h')
  {
    h' := CommittingGrows(n, i, r.probeRound, h, r.ackRound, d);
    CommittedRep(n, i, r, h, h');
    SameDecided(n, h, h', r.ackRound, d);
    SameRounds(n, h, h');
    LearnOk(n, i, r, h', d);
  }

  // A leader decides up to d.
  lemma LearnAndCommit(n: nat, i: nat, rs: seq<Replica>, h: History, rs': seq<Replica>,
                       ps: seq<Packet>, d: nat) returns (h': History)
    requires AllOk(n, rs, h, ps) && i < n
    requires |rs'| == n && rs' == rs[i := rs[i].(decided := Max(rs[i].decided, d))]
    requires DecidedBy(n, h, rs[i].ackRound, d) && d <= End(rs[i])
    ensures AllOk(n, rs', h', ps)
    ensures CommitOnly(h, h') && h.committed <= h'.committed
  {
    h' := LearnRep(n, i, rs[i], h, d);
    Commit(n, rs, h, h', ps);
    LocalMove(n, i, rs, h', rs', ps);
  }
}

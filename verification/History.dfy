/** What the proof remembers about a run, and the invariant that ties it to the replicas.
    For each round that got a leader: the whole log that leader ever had, from slot 0. */
module History {
  import opened Common
  import opened TaskTypes
  import opened Quorums
  import opened ReplicaSpec
  import TM = TaskMachine

  // src: the round of the log adopted; adopt: its length then; quorum: who promised.
  datatype Round = Round(log: seq<DecidedValue>, src: nat, adopt: nat, quorum: set<nat>)

  datatype History = History(
    rounds: map<nat, Round>,
    acc: seq<map<nat, nat>>,         // acc[j][q]: how far replica j's log of round q reached
    base: nat,                       // no replica has truncated beyond this slot ...
    baseRound: nat,                  // ... which everyone has accepted in this round
    committed: seq<DecidedValue>,    // the longest prefix any replica has decided ...
    chosenRound: nat,                // ... chosen in this round
    proposed: set<DecidedValue>)     // values clients have proposed

  function Acc(acc: seq<map<nat, nat>>, j: nat, q: nat): nat {
    if j < |acc| && q in acc[j] then acc[j][q] else 0
  }

  function Ackers(n: nat, acc: seq<map<nat, nat>>, q: nat, s: nat): set<nat> {
    set j | 0 <= j < n && Acc(acc, j, q) >= s
  }

  // A majority has accepted round q's log up to slot s.
  predicate Chosen(n: nat, h: History, q: nat, s: nat) {
    q in h.rounds && |Ackers(n, h.acc, q, s)| >= Quorum(n)
  }

  ghost predicate DecidedBy(n: nat, h: History, r: nat, d: nat) {
    exists q | q in h.rounds :: q <= r && Chosen(n, h, q, d)
  }

  // Nobody takes back what it accepted.
  ghost predicate AccKept(h: History, h': History) {
    forall j, q :: Acc(h.acc, j, q) <= Acc(h'.acc, j, q)
  }

  // ---- rounds ----

  ghost predicate RoundOk(n: nat, h: History, q: nat)
    requires q in h.rounds
  {
    var e := h.rounds[q];
    && e.adopt <= |e.log|
    && (forall v | v in e.log :: v in h.proposed)
    && (q > 0 ==>
        && e.src < q
        && e.src in h.rounds
        && e.adopt <= |h.rounds[e.src].log|
        && e.log[..e.adopt] == h.rounds[e.src].log[..e.adopt]
        && h.rounds[e.src].adopt <= e.adopt
        && e.quorum <= Below(n)
        && |e.quorum| >= Quorum(n)
        && (forall j | j in e.quorum :: Acc(h.acc, j, e.src) <= e.adopt)
        && (forall j, t | j in e.quorum && e.src < t < q :: Acc(h.acc, j, t) == 0))
  }

  ghost predicate RoundsOk(n: nat, h: History) {
    && 0 in h.rounds
    && h.rounds[0].adopt == 0
    && h.baseRound in h.rounds
    && (forall q {:trigger RoundOk(n, h, q)} | q in h.rounds :: RoundOk(n, h, q))
    && (forall j, q :: Acc(h.acc, j, q) > 0 ==> q in h.rounds && Acc(h.acc, j, q) <= |h.rounds[q].log|)
  }

  // Leader completeness: what a majority accepted in a round is in every log adopted later.
  lemma {:induction false} LeaderCompleteness(n: nat, h: History, q: nat, later: nat, s: nat)
    requires RoundsOk(n, h)
    requires Chosen(n, h, q, s)
    requires q < later && later in h.rounds
    ensures s <= |h.rounds[q].log|
    ensures s <= h.rounds[later].adopt <= |h.rounds[later].log|
    ensures h.rounds[later].log[..s] == h.rounds[q].log[..s]
    decreases later
  {
    assert RoundOk(n, h, later);
    if s == 0 {
    } else {
      var e := h.rounds[later];
      var j := QuorumsMeet(n, e.quorum, Ackers(n, h.acc, q, s));
      assert Acc(h.acc, j, q) >= s;
      assert q <= e.src;
      if q < e.src {
        LeaderCompleteness(n, h, q, e.src, s);
      }
      assert e.log[..s] == e.log[..e.adopt][..s];
      assert h.rounds[e.src].log[..s] == h.rounds[e.src].log[..e.adopt][..s];
    }
  }

  // Any two chosen prefixes agree where both are defined.
  lemma ChosenAgree(n: nat, h: History, q: nat, s: nat, q': nat, s': nat)
    requires RoundsOk(n, h)
    requires Chosen(n, h, q, s) && Chosen(n, h, q', s')
    requires s <= s'
    ensures s <= |h.rounds[q].log| && s' <= |h.rounds[q'].log|
    ensures h.rounds[q].log[..s] == h.rounds[q'].log[..s]
  {
    ChosenLength(n, h, q, s);
    ChosenLength(n, h, q', s');
    if q < q' {
      LeaderCompleteness(n, h, q, q', s);
    } else if q' < q {
      LeaderCompleteness(n, h, q', q, s');
      assert h.rounds[q].log[..s] == h.rounds[q].log[..s'][..s];
      assert h.rounds[q'].log[..s] == h.rounds[q'].log[..s'][..s];
    }
  }

  lemma ChosenLength(n: nat, h: History, q: nat, s: nat)
    requires RoundsOk(n, h) && Chosen(n, h, q, s)
    ensures s <= |h.rounds[q].log|
  {
    if s > 0 {
      var a := Ackers(n, h.acc, q, s);
      if a == {} {
        assert false;
      }
      var j :| j in a;
      assert Acc(h.acc, j, q) > 0;
    }
  }

  lemma ChosenShorter(n: nat, h: History, q: nat, s: nat, t: nat)
    requires Chosen(n, h, q, s) && t <= s
    ensures Chosen(n, h, q, t)
  {
    SubsetCard(Ackers(n, h.acc, q, s), Ackers(n, h.acc, q, t));
  }

  // A prefix decided by round r is in every log of round r.
  lemma DecidedPrefix(n: nat, h: History, r: nat, d: nat) returns (q: nat)
    requires RoundsOk(n, h) && r in h.rounds && DecidedBy(n, h, r, d)
    ensures q in h.rounds && q <= r && Chosen(n, h, q, d)
    ensures d <= |h.rounds[r].log| && d <= |h.rounds[q].log|
    ensures h.rounds[r].log[..d] == h.rounds[q].log[..d]
    ensures q < r ==> d <= h.rounds[r].adopt
  {
    q :| q in h.rounds && q <= r && Chosen(n, h, q, d);
    ChosenLength(n, h, q, d);
    if q < r {
      LeaderCompleteness(n, h, q, r, d);
    }
  }

  // ---- one replica ----

  predicate Shape(n: nat, i: nat, r: Replica) {
    && r.index == i < n
    && r.n == n
    && |r.followerAck| == n
    && r.leader < n
    && r.ackRound <= r.probeRound
    && r.electionRound <= r.probeRound
    && (r.electionRound > 0 ==> r.electionRound % n == i)
  }

  predicate CursorsOk(r: Replica) {
    r.logBase <= r.applied <= r.decided <= End(r)
  }

  ghost predicate LogOk(n: nat, i: nat, r: Replica, h: History) {
    && i < |h.acc|
    && r.ackRound in h.rounds
    && h.rounds[r.ackRound].adopt <= End(r) <= |h.rounds[r.ackRound].log|
    && r.log == h.rounds[r.ackRound].log[r.logBase..End(r)]
    && Acc(h.acc, i, r.ackRound) == End(r)
    && (forall q | q in h.acc[i] :: q <= r.ackRound)
  }

  predicate BaseOk(i: nat, r: Replica, h: History) {
    && r.logBase <= h.base
    && h.baseRound <= r.ackRound
    && h.base <= Acc(h.acc, i, h.baseRound)
  }

  ghost predicate DecideOk(n: nat, r: Replica, h: History) {
    && DecidedBy(n, h, r.ackRound, r.decided)
    && r.decided <= |h.committed|
  }

  predicate DbOk(r: Replica, h: History) {
    && r.ackRound in h.rounds
    && r.applied <= |h.rounds[r.ackRound].log|
    && r.ran == h.rounds[r.ackRound].log[..r.applied]
    && r.db == TM.Replay(r.ran)
  }

  predicate LeaderOk(n: nat, i: nat, r: Replica, h: History) {
    r.leader == i && n > 0 ==>
      && r.probeRound == r.ackRound
      && r.probeRound % n == i
      && r.ackRound in h.rounds
      && End(r) == |h.rounds[r.ackRound].log|
      && r.nextSlot == End(r)
      && |r.followerAck| == n
      && i < n
      && r.followerAck[i] == End(r)
      && (forall j | 0 <= j < n ::
            r.followerAck[j] <= End(r) && r.followerAck[j] <= Max(Acc(h.acc, j, r.probeRound), h.base))
  }

  // The slot is one the round's own leader appended to, after adopting an older log.
  predicate InTail(h: History, q: nat, k: nat) {
    q in h.rounds && h.rounds[q].adopt <= k < |h.rounds[q].log|
  }

  // A waiting client's value was appended at its slot by the round it was proposed in.
  predicate PendingOk(r: Replica, h: History) {
    forall k | k in r.pending ::
      var t := r.pending[k];
      InTail(h, t.round, k) && h.rounds[t.round].log[k] == t.value
  }

  // What applying slot k of the sequence c answers.
  ghost function Outcome(c: seq<DecidedValue>, k: nat): Response
    requires k < |c|
  {
    TM.Process(TM.Replay(c[..k]), c[k].req, c[k].now).1
  }

  // A client is told the outcome of what was committed at its slot, which is the value there in
  // the log it was applied from; its own was appended there by the round it was proposed in.
  ghost predicate ReplyOk(p: Reply, h: History) {
    && p.slot < |h.committed|
    && p.resp == Outcome(h.committed, p.slot)
    && p.now == h.committed[p.slot].now
    && p.round in h.rounds
    && p.slot < |h.rounds[p.round].log|
    && h.rounds[p.round].log[p.slot] == h.committed[p.slot]
    && InTail(h, p.ticket.round, p.slot)
    && h.rounds[p.ticket.round].log[p.slot] == p.ticket.value
  }

  ghost predicate RepliesOk(r: Replica, h: History) {
    forall p | p in r.replies :: ReplyOk(p, h)
  }

  ghost predicate RepOk(n: nat, i: nat, r: Replica, h: History) {
    && Shape(n, i, r)
    && CursorsOk(r)
    && LogOk(n, i, r, h)
    && BaseOk(i, r, h)
    && DecideOk(n, r, h)
    && DbOk(r, h)
    && LeaderOk(n, i, r, h)
    && PendingOk(r, h)
    && RepliesOk(r, h)
  }

  // ---- the cluster ----

  // The replica a round belongs to has reached it.
  predicate Reached(n: nat, rs: seq<Replica>, q: nat)
    requires n > 0 && |rs| == n
  {
    q <= rs[q % n].probeRound
  }

  predicate OwnedOk(n: nat, rs: seq<Replica>, rounds: map<nat, Round>)
    requires n > 0 && |rs| == n
  {
    forall q {:trigger Reached(n, rs, q)} | q in rounds :: Reached(n, rs, q)
  }

  predicate PromisesOk(n: nat, rs: seq<Replica>, rounds: map<nat, Round>)
    requires |rs| == n
  {
    forall q, j | q in rounds && 0 <= j < n && j in rounds[q].quorum :: q <= rs[j].probeRound
  }

  predicate CommittedOk(n: nat, h: History) {
    && h.chosenRound in h.rounds
    && Chosen(n, h, h.chosenRound, |h.committed|)
    && h.committed <= h.rounds[h.chosenRound].log
    && h.base <= |h.committed|
  }

  // The history itself, apart from any replica's position in it.
  ghost predicate HistoryOk(n: nat, rs: seq<Replica>, h: History)
    requires n > 0 && |rs| == n
  {
    RoundsOk(n, h) && CommittedOk(n, h) && OwnedOk(n, rs, h.rounds) && PromisesOk(n, rs, h.rounds)
  }

  ghost predicate RepsOk(n: nat, rs: seq<Replica>, h: History)
    requires |rs| == n
  {
    forall i {:trigger RepOk(n, i, rs[i], h)} | 0 <= i < n :: RepOk(n, i, rs[i], h)
  }

  ghost predicate CoreOk(n: nat, rs: seq<Replica>, h: History) {
    n > 0 && |rs| == n && |h.acc| == n && HistoryOk(n, rs, h) && RepsOk(n, rs, h)
  }

  // ---- messages ----

  // A PREPARE reports the sender's log of ackRound, which it can no longer extend.
  predicate PrepareOk(n: nat, rs: seq<Replica>, h: History, m: Message)
    requires |rs| == n
  {
    && m.kind == Prepare
    && 0 < m.round
    && m.sender < n
    && m.round <= rs[m.sender].probeRound
    && m.ackRound in h.rounds
    && m.ackRound <= m.round
    && m.ackSlot == m.slot + |m.values|
    && h.rounds[m.ackRound].adopt <= m.ackSlot <= |h.rounds[m.ackRound].log|
    && m.values == h.rounds[m.ackRound].log[m.slot..m.ackSlot]
    && m.slot <= h.base
    && (m.ackRound < m.round ==>
        Acc(h.acc, m.sender, m.ackRound) <= m.ackSlot && NoneBetween(h, m.sender, m.ackRound, m.round))
  }

  predicate NoneBetween(h: History, j: nat, lo: nat, hi: nat) {
    j < |h.acc| && forall t | t in h.acc[j] && lo < t < hi :: h.acc[j][t] == 0
  }

  ghost predicate ProposeOk(n: nat, h: History, dst: nat, m: Message) {
    var end := m.slot + |m.values|;
    && m.round in h.rounds
    && h.rounds[m.round].adopt <= end <= |h.rounds[m.round].log|
    && m.values == h.rounds[m.round].log[m.slot..end]
    && m.slot <= Max(Acc(h.acc, dst, m.round), h.base)
    && m.decidedSlot <= end
    && DecidedBy(n, h, m.round, m.decidedSlot)
    && m.decidedSlot <= |h.committed|
    && m.truncationSlot <= h.base
  }

  ghost predicate PacketOk(n: nat, rs: seq<Replica>, h: History, p: Packet)
    requires n > 0 && |rs| == n
  {
    var m := p.msg;
    && p.dst < n
    && m.sender < n
    && p.dst != m.sender
    && m.round <= rs[m.round % n].probeRound
    && match m.kind
       case Probe => m.sender == m.round % n && 0 < m.round
       case Prepare => p.dst == m.round % n && PrepareOk(n, rs, h, m)
       case Ack => p.dst == m.round % n && m.ackSlot <= Acc(h.acc, m.sender, m.round)
       case Propose => m.sender == m.round % n && ProposeOk(n, h, p.dst, m)
  }

  ghost predicate PacketsOk(n: nat, rs: seq<Replica>, h: History, ps: seq<Packet>)
    requires n > 0 && |rs| == n
  {
    forall p {:trigger PacketOk(n, rs, h, p)} | p in ps :: PacketOk(n, rs, h, p)
  }

  // The PREPAREs a candidate holds: all of its election's round, from distinct senders, and
  // fewer than a majority exactly while nobody leads that round.
  ghost predicate ResponsesOk(n: nat, rs: seq<Replica>, h: History, i: nat)
    requires |rs| == n && i < n
  {
    var r := rs[i];
    && (forall m | m in r.responses :: PrepareOk(n, rs, h, m) && m.round == r.electionRound)
    && (forall a, b | 0 <= a < b < |r.responses| :: r.responses[a].sender != r.responses[b].sender)
    && (|r.responses| < Quorum(n) && 0 < r.electionRound ==> r.electionRound !in h.rounds)
  }

  ghost predicate AllResponsesOk(n: nat, rs: seq<Replica>, h: History)
    requires |rs| == n
  {
    forall i {:trigger ResponsesOk(n, rs, h, i)} | 0 <= i < n :: ResponsesOk(n, rs, h, i)
  }

  ghost predicate MessagesOk(n: nat, rs: seq<Replica>, h: History, ps: seq<Packet>)
    requires n > 0 && |rs| == n
  {
    PacketsOk(n, rs, h, ps) && AllResponsesOk(n, rs, h)
  }

  ghost predicate AllOk(n: nat, rs: seq<Replica>, h: History, ps: seq<Packet>) {
    CoreOk(n, rs, h) && MessagesOk(n, rs, h, ps)
  }
}

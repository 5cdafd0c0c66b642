/** One Multi-Paxos replica (tm-paxos.cc, tm-paxos-internal.hh) as a state and a step function
    for each handler. Log positions are absolute slots; log[0] sits at slot logBase.
    The class in Replica.dfy runs the source's loops in place and is proved to take these steps. */
module ReplicaSpec {
  import opened Common
  import opened TaskTypes
  import opened Quorums
  import TM = TaskMachine

  datatype MsgType = Propose | Ack | Probe | Prepare

  datatype Message = Message(
    kind: MsgType,
    sender: nat,
    slot: nat,
    values: seq<DecidedValue>,
    ackSlot: nat,
    decidedSlot: nat,
    round: nat,
    ackRound: nat,
    truncationSlot: nat)

  datatype Packet = Packet(dst: nat, msg: Message)

  // A client waiting on a slot: who it is, and the round and value it was proposed with.
  datatype Ticket = Ticket(id: nat, round: nat, value: DecidedValue)

  // What a waiting client was told, and the round of the log its slot was applied from.
  datatype Reply = Reply(ticket: Ticket, slot: nat, resp: Response, now: int, round: nat)

  datatype Replica = Replica(
    index: nat,
    n: nat,
    leader: nat,
    db: TM.State,
    log: seq<DecidedValue>,
    logBase: nat,
    nextSlot: nat,
    followerAck: seq<nat>,
    decided: nat,
    applied: nat,
    probeRound: nat,
    ackRound: nat,
    electionRound: nat,
    responses: seq<Message>,
    pending: map<nat, Ticket>,
    replies: seq<Reply>,
    ran: seq<DecidedValue>,       // every value applied, in the order it was
    logged: seq<DecidedValue>)    // those written to the decision log

  datatype Effect = Effect(r: Replica, out: seq<Packet>)

  function Start(index: nat, n: nat): Replica {
    Replica(index, n, 0, TM.INIT, [], 0, 0, seq(n, _ => 0), 0, 0, 0, 0, 0, [], map[], [], [], [])
  }

  function End(r: Replica): nat { r.logBase + |r.log| }

  // ---- deciding, applying, truncating ----

  function TryDecide(r: Replica): Replica {
    r.(decided := Max(r.decided, CommitPoint(r.followerAck)))
  }

  predicate CanApply(r: Replica) { r.logBase <= r.applied < End(r) }

  // What the decision log keeps of applied values: everything but the task lists.
  function Logged(vs: seq<DecidedValue>): seq<DecidedValue> {
    if |vs| == 0 then []
    else Logged(Front(vs)) + (if Last(vs).req.List? then [] else [Last(vs)])
  }

  // Run the next log entry on the database. With notify, it is logged and a client waiting on the
  // slot is answered; the catch-up loop of a new leader does neither.
  function ApplyOne(r: Replica, notify: bool): Replica
    requires CanApply(r)
  {
    var v := r.log[r.applied - r.logBase];
    var (db, resp) := TM.Process(r.db, v.req, v.now);
    var r1 := r.(db := db, applied := r.applied + 1, ran := r.ran + [v],
                 logged := if notify then r.logged + Logged([v]) else r.logged);
    if notify && r.applied in r.pending then
      r1.(pending := r.pending - {r.applied},
          replies := r.replies + [Reply(r.pending[r.applied], r.applied, resp, v.now, r.ackRound)])
    else r1
  }

  lemma LoggedOne(v: DecidedValue)
    ensures Logged([v]) == if v.req.List? then [] else [v]
  {
    assert Front([v]) == [];
  }

  lemma {:induction false} LoggedConcat(a: seq<DecidedValue>, b: seq<DecidedValue>)
    ensures Logged(a + b) == Logged(a) + Logged(b)
  {
    if |b| == 0 {
      assert a + b == a;
    } else {
      LoggedConcat(a, Front(b));
      assert Front(a + b) == a + Front(b) && Last(a + b) == Last(b);
    }
  }

  // Apply in slot order up to t or the end of the log.
  function ApplyTo(r: Replica, t: nat, notify: bool): Replica
    decreases End(r) - r.applied
  {
    if r.applied < t && CanApply(r) then ApplyTo(ApplyOne(r, notify), t, notify) else r
  }

  // Drop the entries below slot t, stopping when the log is empty.
  function TruncateTo(r: Replica, t: nat): Replica {
    var k := Min(t, End(r));
    if r.logBase < k then r.(log := r.log[k - r.logBase..], logBase := k) else r
  }

  function TryTruncate(r: Replica): Replica {
    if |r.followerAck| == 0 then r else TruncateTo(r, MinOf(r.followerAck))
  }

  function ApplyDecided(r: Replica): Replica {
    var r1 := TryDecide(r);
    var r2 := ApplyTo(r1, r1.decided, true);
    if r2.leader == r2.index then TryTruncate(r2) else r2
  }

  // ---- proposing ----

  function Clamp(x: nat, lo: nat, hi: nat): nat
    requires lo <= hi
  {
    if x < lo then lo else if x > hi then hi else x
  }

  function ProposeFor(r: Replica, i: nat): Message
    requires i < |r.followerAck|
  {
    var start := Clamp(r.followerAck[i], r.logBase, End(r));
    Message(Propose, r.index, start, r.log[start - r.logBase..], 0, r.decided, r.probeRound, 0,
            r.logBase)
  }

  // The PROPOSEs sent to replicas 0..k-1, skipping ourselves.
  function ProposeBelow(r: Replica, k: nat): seq<Packet>
    requires k <= |r.followerAck|
  {
    if k == 0 then []
    else ProposeBelow(r, k - 1)
         + (if k - 1 == r.index then [] else [Packet(k - 1, ProposeFor(r, k - 1))])
  }

  function SendPropose(r: Replica): seq<Packet> {
    if r.n <= |r.followerAck| then ProposeBelow(r, r.n) else []
  }

  // ---- election ----

  function NextRound(r: Replica): nat
    requires r.n > 0
  {
    r.probeRound + r.n - r.probeRound % r.n + r.index
  }

  // The PREPARE that reports our whole log to the candidate of a round.
  function PrepareFor(r: Replica, round: nat): Message {
    Message(Prepare, r.index, r.logBase, r.log, End(r), r.decided, round, r.ackRound, 0)
  }

  function ProbeFor(r: Replica): Message {
    Message(Probe, r.index, 0, [], 0, r.decided, r.electionRound, 0, 0)
  }

  function ProbeBelow(r: Replica, k: nat): seq<Packet> {
    if k == 0 then []
    else ProbeBelow(r, k - 1) + (if k - 1 == r.index then [] else [Packet(k - 1, ProbeFor(r))])
  }

  function Candidate(r: Replica): Replica
    requires r.n > 0
  {
    var e := NextRound(r);
    r.(electionRound := e, probeRound := e, responses := [PrepareFor(r, e)])
  }

  function StartElection(r: Replica): Effect
    requires r.n > 0
  {
    var r1 := Candidate(r);
    var probes := ProbeBelow(r1, r.n);
    if 1 >= Quorum(r.n) then
      var e := BecomeLeader(r1);
      Effect(e.r, probes + e.out)
    else Effect(r1, probes)
  }

  // The order of become_leader: by round of the reported log, then by its end.
  predicate Weaker(a: Message, b: Message) {
    a.ackRound < b.ackRound || (a.ackRound == b.ackRound && a.ackSlot < b.ackSlot)
  }

  // The first greatest response, as std::max_element returns it.
  function BestOf(ms: seq<Message>): (m: Message)
    requires |ms| > 0
    ensures m in ms
    ensures forall x | x in ms :: !Weaker(m, x)
  {
    if |ms| == 1 then ms[0]
    else
      var b := BestOf(Front(ms));
      assert forall x | x in ms :: x in Front(ms) || x == Last(ms);
      if Weaker(b, Last(ms)) then Last(ms) else b
  }

  // Everything before it is weaker.
  lemma {:induction false} BestIsFirst(ms: seq<Message>) returns (k: nat)
    requires |ms| > 0
    ensures k < |ms| && BestOf(ms) == ms[k]
    ensures forall j | 0 <= j < k :: Weaker(ms[j], ms[k])
  {
    if |ms| == 1 {
      k := 0;
    } else {
      var b := BestIsFirst(Front(ms));
      k := if Weaker(ms[b], Last(ms)) then |ms| - 1 else b;
      forall j | 0 <= j < k ensures Weaker(ms[j], ms[k]) {
        assert ms[j] == Front(ms)[j] || j == |ms| - 1;
        assert Front(ms)[j] in Front(ms);
      }
    }
  }

  // Apply our own entries below the new base, which the adopted log may no longer carry.
  function CatchUp(r: Replica, t: nat): Replica {
    var r1 := ApplyTo(r, t, false);
    r1.(decided := Max(r1.decided, t), applied := Max(r1.applied, t))
  }

  function Adopt(r: Replica, best: Message): Replica {
    var next := best.slot + |best.values|;
    var acks := seq(|r.followerAck|, _ => best.slot);
    r.(log := best.values,
       logBase := best.slot,
       nextSlot := next,
       leader := r.index,
       ackRound := r.electionRound,
       followerAck := if r.index < |acks| then acks[r.index := next] else acks)
  }

  function BecomeLeader(r: Replica): Effect {
    if |r.responses| == 0 then Effect(r, [])
    else
      var best := BestOf(r.responses);
      var r1 := Adopt(CatchUp(r, best.slot), best);
      Effect(ApplyDecided(r1), SendPropose(r1))
  }

  // ---- messages ----

  function StepDown(r: Replica, m: Message): Replica {
    if m.round > r.probeRound then r.(probeRound := m.round, leader := m.sender) else r
  }

  function RecordAck(r: Replica, m: Message): Replica {
    if m.kind == Ack && m.round == r.probeRound && m.sender < |r.followerAck| then
      r.(followerAck := r.followerAck[m.sender := Max(r.followerAck[m.sender], m.ackSlot)])
    else r
  }

  function AckFor(r: Replica): Message {
    Message(Ack, r.index, 0, [], End(r), r.decided, r.probeRound, 0, 0)
  }

  // The log after writing values at absolute slot s: positions below the base are skipped,
  // existing entries overwritten, the rest appended.
  function Written(log: seq<DecidedValue>, base: nat, s: nat, values: seq<DecidedValue>)
    : seq<DecidedValue>
    requires s <= base + |log|
  {
    var end := s + |values|;
    if end <= base then log
    else
      var from := Max(s, base);
      log[..from - base] + values[from - s..]
      + (if end - base <= |log| then log[end - base..] else [])
  }

  function CutAt(log: seq<DecidedValue>, base: nat, end: nat): seq<DecidedValue> {
    if base + |log| <= end then log else if base <= end then log[..end - base] else []
  }

  // Take over the leader's values: reset on a gap, write, and on a new round cut the tail.
  function AcceptLog(r: Replica, m: Message): Replica {
    var end := m.slot + |m.values|;
    var newRound := m.round > r.ackRound;
    var gap := m.slot > End(r);
    var log := if gap then [] else r.log;
    var base := if gap then m.slot else r.logBase;
    var applied := if gap then Max(r.applied, m.slot) else r.applied;
    var written := Written(log, base, m.slot, m.values);
    r.(leader := m.sender,
       ackRound := m.round,
       logBase := base,
       applied := applied,
       log := if newRound then CutAt(written, base, end) else written)
  }

  // A PROPOSE of our own round that would shorten the log is a stale retransmission.
  predicate StalePropose(r: Replica, m: Message) {
    m.round == r.ackRound && m.slot + |m.values| < End(r)
  }

  function HandlePropose(r: Replica, m: Message): Effect {
    if StalePropose(r, m) then
      var r1 := r.(leader := m.sender);
      Effect(r1, [Packet(m.sender, AckFor(r1))])
    else
      var r1 := AcceptLog(r, m);
      var r2 := ApplyDecided(r1.(decided := Max(r1.decided, m.decidedSlot)));
      var r3 := TruncateTo(r2, Min(m.truncationSlot, r2.applied));
      Effect(r3, [Packet(m.sender, AckFor(r3))])
  }

  // The response that makes us leader of the round we stand for.
  predicate Wins(r: Replica, m: Message) {
    && m.kind == Prepare
    && m.round == r.electionRound == r.probeRound
    && |r.responses| + 1 == Quorum(r.n)
  }

  function HandlePrepare(r: Replica, m: Message): Effect {
    if m.round == r.electionRound && r.probeRound == r.electionRound then
      var r1 := r.(responses := r.responses + [m]);
      if |r1.responses| == Quorum(r.n) then BecomeLeader(r1) else Effect(r1, [])
    else Effect(r, [])
  }

  // What a handler takes for granted of a message: it comes from another replica, and the log a
  // new leader sends does not end below what was truncated here.
  predicate Legal(r: Replica, m: Message) {
    && m.sender < r.n
    && m.sender != r.index
    && (m.kind == Propose && r.probeRound <= m.round && r.ackRound < m.round && m.slot <= End(r) ==>
          r.logBase <= m.slot + |m.values|)
  }

  function Receive(r0: Replica, m: Message): Effect {
    var r := StepDown(r0, m);
    if m.round < r.probeRound then Effect(r, [])
    else if m.kind == Probe then Effect(r, [Packet(m.sender, PrepareFor(r, m.round))])
    else if m.kind == Prepare then HandlePrepare(r, m)
    else if r.index == r.leader then Effect(ApplyDecided(RecordAck(r, m)), [])
    else if m.kind == Propose then HandlePropose(r, m)
    else Effect(r, [])
  }

  // ---- timers and clients ----

  // The 100 ms timer: a leader retransmits; a follower whose leader was silent stands for election.
  function Timeout(r: Replica, silent: bool): Effect
    requires r.n > 0
  {
    if r.index == r.leader then Effect(ApplyDecided(r), SendPropose(r))
    else if silent then StartElection(r)
    else Effect(r, [])
  }

  function Append(r: Replica, t: Ticket): Replica {
    r.(pending := r.pending[r.nextSlot := t],
       log := r.log + [t.value],
       nextSlot := r.nextSlot + 1,
       followerAck := if r.index < |r.followerAck| then r.followerAck[r.index := r.nextSlot + 1]
                      else r.followerAck)
  }

  function ValueOf(req: Request, now: int): DecidedValue {
    DecidedValue(now, req.agent, req.serial, req)
  }

  function NotLeaderResponse(req: Request): Response { CreateResp(req.serial, Busy, "") }

  // propose_and_apply: the client is refused unless this replica believes it leads.
  function ClientPropose(r: Replica, id: nat, req: Request, now: int): Effect {
    if r.index != r.leader then Effect(r, [])
    else
      var r1 := Append(r, Ticket(id, r.probeRound, ValueOf(req, now)));
      Effect(ApplyDecided(r1), SendPropose(r1))
  }
}

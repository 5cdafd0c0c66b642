/** Three replicas, step by step: what the example runs share. */
module Trio {
  import opened Common
  import opened TaskTypes
  import opened Quorums
  import opened ReplicaSpec
  import opened Cluster
  import TM = TaskMachine

  lemma SortThree(a: nat, b: nat, c: nat)
    ensures CommitPoint([a, b, c]) == Max(Min(a, b), Min(Max(a, b), c))
  {
    var s := [a, b, c];
    assert Front(s) == [a, b] && Front([a, b]) == [a] && Front([a]) == [];
    assert Sort([a]) == [a];
    assert Sort([a, b]) == [Min(a, b), Max(a, b)];
    assert Sort(s) == Insert(c, [Min(a, b), Max(a, b)]);
  }

  lemma NothingNew(r: Replica)
    requires r.applied == r.decided && CommitPoint(r.followerAck) <= r.decided
    requires |r.followerAck| > 0 && (r.leader == r.index ==> MinOf(r.followerAck) <= r.logBase)
    ensures ApplyDecided(r) == r
  {
  }

  lemma OneMore(r: Replica, k: nat, before: seq<Packet>)
    requires k < |r.followerAck| && ProposeBelow(r, k) == before
    ensures ProposeBelow(r, k + 1)
            == if k == r.index then before else before + [Packet(k, ProposeFor(r, k))]
  {
  }

  // The two PROPOSEs a replica of three sends, in order.
  lemma TwoProposals(r: Replica, i: nat, j: nat)
    requires r.n == 3 == |r.followerAck| && r.index < 3
    requires i < j < 3 && i != r.index && j != r.index
    ensures SendPropose(r) == [Packet(i, ProposeFor(r, i)), Packet(j, ProposeFor(r, j))]
  {
    var pi, pj := Packet(i, ProposeFor(r, i)), Packet(j, ProposeFor(r, j));
    FirstTwo(r, i, j, pi, pj);
    OneMore(r, 2, if j == 1 then [pi, pj] else [pi]);
  }

  lemma FirstTwo(r: Replica, i: nat, j: nat, pi: Packet, pj: Packet)
    requires |r.followerAck| == 3 && r.index < 3 && i < j < 3 && i != r.index && j != r.index
    requires pi == Packet(i, ProposeFor(r, i)) && pj == Packet(j, ProposeFor(r, j))
    ensures ProposeBelow(r, 2) == if j == 1 then [pi, pj] else [pi]
  {
    OneMore(r, 0, []);
    OneMore(r, 1, if i == 0 then [pi] else []);
  }

  // Where the cluster is: its replicas, how much was sent, and what was delivered.
  predicate Scene(s: Sys, a: Replica, b: Replica, c: Replica, sent: nat, spent: set<nat>) {
    s.n == 3 && s.rs == [a, b, c] && |s.packets| == sent && s.spent == spent
  }

  lemma Onward(acts: seq<Action>, k: nat)
    requires k < |acts|
    ensures Run(3, acts[..k + 1]) == Step(Run(3, acts[..k]), acts[k])
  {
    assert Front(acts[..k + 1]) == acts[..k];
  }

  lemma StartScene()
    ensures Scene(Run(3, []), Start(0, 3), Start(1, 3), Start(2, 3), 0, {})
  {
  }

  // What a step does, given what its handler does.
  lemma PutClient(s: Sys, i: nat, id: nat, req: Request, now: int, e: Effect)
    requires i < |s.rs| && e == ClientPropose(s.rs[i], id, req, now)
    ensures Step(s, Client(i, id, req, now)) == s.(rs := s.rs[i := e.r], packets := s.packets + e.out)
  {
  }

  lemma PutTick(s: Sys, i: nat, silent: bool, e: Effect)
    requires i < |s.rs| && s.rs[i].n > 0 && e == Timeout(s.rs[i], silent)
    ensures Step(s, Tick(i, silent)) == s.(rs := s.rs[i := e.r], packets := s.packets + e.out)
  {
  }

  lemma PutDelivery(s: Sys, k: nat, i: nat, m: Message, e: Effect)
    requires InFlight(s, k) && s.packets[k] == Packet(i, m) && i < |s.rs| && e == Receive(s.rs[i], m)
    ensures Step(s, Deliver(k)) == s.(rs := s.rs[i := e.r], packets := s.packets + e.out,
                                      spent := s.spent + {k})
  {
  }

  // ---- replica 0 is asked first ----

  predicate Proposable(v: DecidedValue) { v == ValueOf(v.req, v.now) }

  function Offer(v: DecidedValue, slot: nat): Message {
    Message(Propose, 0, slot, [v], 0, slot, 0, 0, slot)
  }

  function Asked(a: DecidedValue): Replica {
    Start(0, 3).(pending := map[0 := Ticket(7, 0, a)], log := [a], nextSlot := 1, followerAck := [1, 0, 0])
  }

  lemma Asks(a: DecidedValue)
    requires Proposable(a)
    ensures ClientPropose(Start(0, 3), 7, a.req, a.now)
            == Effect(Asked(a), [Packet(1, Offer(a, 0)), Packet(2, Offer(a, 0))])
  {
    assert Append(Start(0, 3), Ticket(7, 0, a)) == Asked(a);
    SortThree(1, 0, 0);
    NothingNew(Asked(a));
    TwoProposals(Asked(a), 1, 2);
  }

  lemma AskEffect(a: DecidedValue) returns (e: Effect)
    requires Proposable(a)
    ensures e == ClientPropose(Start(0, 3), 7, a.req, a.now) && e.r == Asked(a)
    ensures e.out == [Packet(1, Offer(a, 0)), Packet(2, Offer(a, 0))]
  {
    Asks(a);
    e := ClientPropose(Start(0, 3), 7, a.req, a.now);
  }

  lemma FirstAsk(s: Sys, a: DecidedValue, x: Replica, y: Replica)
    requires Proposable(a) && Scene(s, Start(0, 3), x, y, 0, {})
    ensures var s' := Step(s, Client(0, 7, a.req, a.now));
            && Scene(s', Asked(a), x, y, 2, {})
            && s'.packets == [Packet(1, Offer(a, 0)), Packet(2, Offer(a, 0))]
  {
    var e := AskEffect(a);
    PutClient(s, 0, 7, a.req, a.now, e);
  }

  // ---- replica 1 takes over in round 4, with replica 2's promise and an empty log ----

  const PROMISE1: Message := Message(Prepare, 1, 0, [], 0, 0, 4, 0, 0)
  const PROMISE2: Message := Message(Prepare, 2, 0, [], 0, 0, 4, 0, 0)
  const PROBE: Message := Message(Probe, 1, 0, [], 0, 0, 4, 0, 0)

  const CANDIDATE: Replica :=
    Start(1, 3).(electionRound := 4, probeRound := 4, responses := [PROMISE1])

  const PROMISED: Replica := Start(2, 3).(probeRound := 4, leader := 1)

  const ELECTED: Replica :=
    CANDIDATE.(responses := [PROMISE1, PROMISE2], leader := 1, ackRound := 4, followerAck := [0, 0, 0])

  function Proposal(values: seq<DecidedValue>, slot: nat, decided: nat, round: nat, sender: nat): Message {
    Message(Propose, sender, slot, values, 0, decided, round, 0, 0)
  }

  lemma Stands()
    ensures Timeout(Start(1, 3), true) == Effect(CANDIDATE, [Packet(0, PROBE), Packet(2, PROBE)])
  {
    assert Candidate(Start(1, 3)) == CANDIDATE;
    assert ProbeBelow(CANDIDATE, 1) == [Packet(0, PROBE)];
    assert ProbeBelow(CANDIDATE, 2) == [Packet(0, PROBE)];
    assert ProbeBelow(CANDIDATE, 3) == [Packet(0, PROBE), Packet(2, PROBE)];
  }

  lemma Promises()
    ensures Receive(Start(2, 3), PROBE) == Effect(PROMISED, [Packet(1, PROMISE2)])
  {
  }

  lemma Picks()
    ensures BestOf([PROMISE1, PROMISE2]) == PROMISE1
  {
    assert Front([PROMISE1, PROMISE2]) == [PROMISE1];
  }

  lemma Adopts(r: Replica)
    requires r == CANDIDATE.(responses := [PROMISE1, PROMISE2])
    ensures CatchUp(r, 0) == r && Adopt(r, PROMISE1) == ELECTED
  {
    assert seq(3, _ => 0)[1 := 0] == [0, 0, 0];
  }

  lemma Wins()
    ensures Receive(CANDIDATE, PROMISE2)
            == Effect(ELECTED, [Packet(0, Proposal([], 0, 0, 4, 1)), Packet(2, Proposal([], 0, 0, 4, 1))])
  {
    Picks();
    Adopts(CANDIDATE.(responses := [PROMISE1, PROMISE2]));
    SortThree(0, 0, 0);
    NothingNew(ELECTED);
    TwoProposals(ELECTED, 0, 2);
    assert CANDIDATE.(responses := CANDIDATE.responses + [PROMISE2])
        == CANDIDATE.(responses := [PROMISE1, PROMISE2]);
  }

  lemma StandStep(s: Sys, x: Replica, y: Replica)
    requires Scene(s, x, Start(1, 3), y, 2, {})
    ensures var s' := Step(s, Tick(1, true));
            Scene(s', x, CANDIDATE, y, 4, {}) && s'.packets[3] == Packet(2, PROBE)
  {
    Stands();
  }

  lemma PromiseStep(s: Sys, x: Replica, y: Replica)
    requires Scene(s, x, y, Start(2, 3), 4, {}) && s.packets[3] == Packet(2, PROBE)
    ensures var s' := Step(s, Deliver(3));
            Scene(s', x, y, PROMISED, 5, {3}) && s'.packets[4] == Packet(1, PROMISE2)
  {
    Promises();
  }

  lemma WinStep(s: Sys, x: Replica, y: Replica)
    requires Scene(s, x, CANDIDATE, y, 5, {3}) && s.packets[4] == Packet(1, PROMISE2)
    ensures var s' := Step(s, Deliver(4));
            Scene(s', x, ELECTED, y, 7, {3, 4}) && s'.packets[5] == Packet(0, Proposal([], 0, 0, 4, 1))
  {
    Wins();
  }

  predicate TakesOver(acts: seq<Action>, a: DecidedValue) {
    && |acts| >= 4
    && acts[0] == Client(0, 7, a.req, a.now)
    && acts[1] == Tick(1, true)
    && acts[2] == Deliver(3)
    && acts[3] == Deliver(4)
  }

  lemma ToElection(acts: seq<Action>, a: DecidedValue)
    requires TakesOver(acts, a) && Proposable(a)
    ensures var s := Run(3, acts[..2]);
            Scene(s, Asked(a), CANDIDATE, Start(2, 3), 4, {}) && s.packets[3] == Packet(2, PROBE)
  {
    StartScene();
    Onward(acts, 0);
    FirstAsk(Run(3, acts[..0]), a, Start(1, 3), Start(2, 3));
    Onward(acts, 1);
    StandStep(Run(3, acts[..1]), Asked(a), Start(2, 3));
  }

  lemma ToTakeover(acts: seq<Action>, a: DecidedValue)
    requires TakesOver(acts, a) && Proposable(a)
    ensures var s := Run(3, acts[..4]);
            && Scene(s, Asked(a), ELECTED, PROMISED, 7, {3, 4})
            && s.packets[5] == Packet(0, Proposal([], 0, 0, 4, 1))
  {
    ToElection(acts, a);
    Onward(acts, 2);
    PromiseStep(Run(3, acts[..2]), Asked(a), CANDIDATE);
    Onward(acts, 3);
    WinStep(Run(3, acts[..3]), Asked(a), PROMISED);
  }

  // ---- running the first value ----

  function After(a: DecidedValue): TM.State { TM.Process(TM.INIT, a.req, a.now).0 }

  function Answer(a: DecidedValue): Response { TM.Process(TM.INIT, a.req, a.now).1 }

  // Applying the only entry, on a replica that has applied nothing yet.
  lemma AppliesFirst(r: Replica, a: DecidedValue, notify: bool)
    requires r.log == [a] && r.logBase == 0 == r.applied && r.db == TM.INIT
    ensures ApplyTo(r, 1, notify) == ApplyOne(r, notify)
    ensures ApplyOne(r, notify).applied == 1 && ApplyOne(r, notify).ran == r.ran + [a]
  {
  }

  // A handler's effect, named so that its result is all that matters.
  lemma ReceiveEffect(r: Replica, m: Message) returns (e: Effect)
    ensures e == Receive(r, m)
  {
    e := Receive(r, m);
  }
}

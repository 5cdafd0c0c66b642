/** A run in which a client is told the outcome of another client's request. A waiting client is
    known by its slot alone and is not forgotten when its leader steps down: if the next leader
    commits another value at that slot, the old one answers it with that value's outcome. */
module ForeignReply {
  import opened Common
  import opened TaskTypes
  import opened Quorums
  import opened ReplicaSpec
  import opened Cluster
  import opened Trio
  import TM = TaskMachine

  const A: DecidedValue := DecidedValue(0, "a", 1, List(1, "a", None, false))
  const B: DecidedValue := DecidedValue(0, "b", 2, List(2, "b", None, false))

  // Replica 0 takes A and is cut off; replica 1 wins round 4 with replica 2's promise, commits B at
  // the same slot, and its retransmission reaches replica 0.
  predicate Script(acts: seq<Action>) {
    && |acts| == 9
    && acts[0] == Client(0, 7, A.req, 0)
    && acts[1] == Tick(1, true)
    && acts[2] == Deliver(3)
    && acts[3] == Deliver(4)
    && acts[4] == Client(1, 8, B.req, 0)
    && acts[5] == Deliver(8)
    && acts[6] == Deliver(9)
    && acts[7] == Tick(1, false)
    && acts[8] == Deliver(10)
  }

  // ---- the replicas along the way ----

  const WAITING: Replica := Asked(A)

  const PROPOSING: Replica :=
    ELECTED.(pending := map[0 := Ticket(8, 4, B)], log := [B], nextSlot := 1, followerAck := [0, 1, 0])

  const ACCEPTED: Replica := PROMISED.(ackRound := 4, log := [B])

  const ANSWER: Response := ListResp(2, Okay, [])

  const DECIDED: Replica :=
    PROPOSING.(followerAck := [0, 1, 1], decided := 1, applied := 1, pending := map[],
               replies := [Reply(Ticket(8, 4, B), 0, ANSWER, 0, 4)], ran := [B])

  const FOREIGN: Replica :=
    WAITING.(probeRound := 4, leader := 1, ackRound := 4, log := [B], decided := 1, applied := 1,
             pending := map[], replies := [Reply(Ticket(7, 0, A), 0, ANSWER, 0, 4)], ran := [B])

  const ACK: Message := Message(Ack, 2, 0, [], 1, 0, 4, 0, 0)

  // ---- each step ----

  lemma Proposes()
    ensures ClientPropose(ELECTED, 8, B.req, 0)
            == Effect(PROPOSING, [Packet(0, Proposal([B], 0, 0, 4, 1)), Packet(2, Proposal([B], 0, 0, 4, 1))])
  {
    assert Append(ELECTED, Ticket(8, 4, B)) == PROPOSING;
    SortThree(0, 1, 0);
    NothingNew(PROPOSING);
    TwoProposals(PROPOSING, 0, 2);
  }

  lemma Accepts()
    ensures Receive(PROMISED, Proposal([B], 0, 0, 4, 1)) == Effect(ACCEPTED, [Packet(1, ACK)])
  {
    assert AcceptLog(PROMISED, Proposal([B], 0, 0, 4, 1)) == ACCEPTED;
    assert ACCEPTED.followerAck == [0, 0, 0];
    SortThree(0, 0, 0);
    NothingNew(ACCEPTED);
  }

  lemma Answers(v: DecidedValue)
    requires v == B
    ensures TM.Process(TM.INIT, v.req, v.now) == (TM.INIT, ANSWER)
  {
  }

  lemma Decides()
    ensures Receive(PROPOSING, ACK) == Effect(DECIDED, [])
  {
    var r := PROPOSING.(followerAck := [0, 1, 1]);
    assert RecordAck(PROPOSING, ACK) == r;
    SortThree(0, 1, 1);
    var r1 := r.(decided := 1);
    assert TryDecide(r) == r1;
    RunsFirst(r1);
    assert MinOf(DECIDED.followerAck) == 0;
  }

  lemma RunsFirst(r: Replica)
    requires r == PROPOSING.(followerAck := [0, 1, 1], decided := 1)
    ensures ApplyTo(r, 1, true) == DECIDED
  {
    Answers(B);
    LoggedOne(B);
    assert ApplyOne(r, true) == DECIDED;
  }

  lemma Retransmits()
    ensures Timeout(DECIDED, false)
            == Effect(DECIDED, [Packet(0, Proposal([B], 0, 1, 4, 1)), Packet(2, Proposal([], 1, 1, 4, 1))])
  {
    SortThree(0, 1, 1);
    NothingNew(DECIDED);
    TwoProposals(DECIDED, 0, 2);
    assert ProposeFor(DECIDED, 2) == Proposal([], 1, 1, 4, 1);
  }

  lemma Misleads()
    ensures Receive(WAITING, Proposal([B], 0, 1, 4, 1)).r == FOREIGN
  {
    var m := Proposal([B], 0, 1, 4, 1);
    var r := WAITING.(probeRound := 4, leader := 1);
    assert StepDown(WAITING, m) == r;
    var r1 := r.(ackRound := 4, log := [B]);
    assert AcceptLog(r, m) == r1;
    var r2 := r1.(decided := 1);
    SortThree(1, 0, 0);
    assert TryDecide(r2) == r2;
    RunsForeign(r2);
  }

  lemma RunsForeign(r: Replica)
    requires r == WAITING.(probeRound := 4, leader := 1, ackRound := 4, log := [B], decided := 1)
    ensures ApplyTo(r, 1, true) == FOREIGN
  {
    Answers(B);
    LoggedOne(B);
    assert ApplyOne(r, true) == FOREIGN;
  }

  // ---- the run ----

  lemma Step5(s: Sys, x: Replica, y: Replica)
    requires Scene(s, x, ELECTED, y, 7, {3, 4})
    ensures var s' := Step(s, Client(1, 8, B.req, 0));
            && Scene(s', x, PROPOSING, y, 9, {3, 4})
            && s'.packets[8] == Packet(2, Proposal([B], 0, 0, 4, 1))
  {
    var e := ProposeEffect();
    PutClient(s, 1, 8, B.req, 0, e);
  }

  lemma ProposeEffect() returns (e: Effect)
    ensures e == ClientPropose(ELECTED, 8, B.req, 0) && e.r == PROPOSING
    ensures |e.out| == 2 && e.out[1] == Packet(2, Proposal([B], 0, 0, 4, 1))
  {
    Proposes();
    e := ClientPropose(ELECTED, 8, B.req, 0);
  }

  lemma Step6(s: Sys, x: Replica, y: Replica)
    requires Scene(s, x, y, PROMISED, 9, {3, 4})
    requires s.packets[8] == Packet(2, Proposal([B], 0, 0, 4, 1))
    ensures var s' := Step(s, Deliver(8));
            Scene(s', x, y, ACCEPTED, 10, {3, 4, 8}) && s'.packets[9] == Packet(1, ACK)
  {
    Accepts();
  }

  lemma Step7(s: Sys, x: Replica, y: Replica)
    requires Scene(s, x, PROPOSING, y, 10, {3, 4, 8}) && s.packets[9] == Packet(1, ACK)
    ensures Scene(Step(s, Deliver(9)), x, DECIDED, y, 10, {3, 4, 8, 9})
  {
    Decides();
  }

  lemma Step8(s: Sys, x: Replica, y: Replica)
    requires Scene(s, x, DECIDED, y, 10, {3, 4, 8, 9})
    ensures var s' := Step(s, Tick(1, false));
            && Scene(s', x, DECIDED, y, 12, {3, 4, 8, 9})
            && s'.packets[10] == Packet(0, Proposal([B], 0, 1, 4, 1))
  {
    Retransmits();
  }

  lemma Step9(s: Sys, x: Replica, y: Replica)
    requires Scene(s, WAITING, x, y, 12, {3, 4, 8, 9})
    requires s.packets[10] == Packet(0, Proposal([B], 0, 1, 4, 1))
    ensures var s' := Step(s, Deliver(10)); |s'.rs| == 3 && s'.rs[0] == FOREIGN
  {
    Misleads();
  }

  lemma ToAcceptance(acts: seq<Action>)
    requires Script(acts)
    ensures var s := Run(3, acts[..6]);
            Scene(s, WAITING, PROPOSING, ACCEPTED, 10, {3, 4, 8}) && s.packets[9] == Packet(1, ACK)
  {
    ToTakeover(acts, A);
    Onward(acts, 4);
    Step5(Run(3, acts[..4]), WAITING, PROMISED);
    Onward(acts, 5);
    Step6(Run(3, acts[..5]), WAITING, PROPOSING);
  }

  lemma ToRetransmission(acts: seq<Action>)
    requires Script(acts)
    ensures var s := Run(3, acts[..8]);
            && Scene(s, WAITING, DECIDED, ACCEPTED, 12, {3, 4, 8, 9})
            && s.packets[10] == Packet(0, Proposal([B], 0, 1, 4, 1))
  {
    ToAcceptance(acts);
    Onward(acts, 6);
    Step7(Run(3, acts[..6]), WAITING, ACCEPTED);
    Onward(acts, 7);
    Step8(Run(3, acts[..7]), WAITING, ACCEPTED);
  }

  lemma ToEnd(acts: seq<Action>)
    requires Script(acts)
    ensures |Run(3, acts).rs| == 3 && Run(3, acts).rs[0] == FOREIGN
  {
    ToRetransmission(acts);
    Onward(acts, 8);
    Step9(Run(3, acts[..8]), DECIDED, ACCEPTED);
    assert acts[..9] == acts;
  }

  lemma ScriptExists() returns (acts: seq<Action>)
    ensures Script(acts)
  {
    acts := [Client(0, 7, A.req, 0), Tick(1, true), Deliver(3), Deliver(4), Client(1, 8, B.req, 0),
             Deliver(8), Deliver(9), Tick(1, false), Deliver(10)];
  }

  // Replica 0 answers the client that asked for A with the outcome of B.
  lemma AnsweredForAnother() returns (acts: seq<Action>)
    ensures Script(acts) && |Run(3, acts).rs| == 3
    ensures var r := Run(3, acts).rs[0];
            && |r.replies| == 1
            && r.replies[0].ticket.value == A
            && r.replies[0].resp == TM.Process(TM.INIT, B.req, B.now).1
            && r.replies[0].resp.serial != A.serial
            && r.replies[0].round != r.replies[0].ticket.round
  {
    acts := ScriptExists();
    ToEnd(acts);
    Answers(B);
  }
}

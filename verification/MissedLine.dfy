/** A run after which a replica has applied a request and never logged it: it learns that the request
    was decided only by becoming leader on top of a log that was truncated beyond it. */
module MissedLine {
  import opened Common
  import opened TaskTypes
  import opened Quorums
  import opened ReplicaSpec
  import opened Cluster
  import opened Trio
  import TM = TaskMachine
  import Journal

  // Everyone accepts a; replica 0 decides it and truncates; b reaches replica 2 with that news, and
  // replica 2 truncates too; replica 1, which heard nothing since, wins round 4 with its promise.
  predicate Script(acts: seq<Action>, a: DecidedValue, b: DecidedValue) {
    && |acts| == 10
    && acts[0] == Client(0, 7, a.req, a.now)
    && acts[1] == Deliver(0)
    && acts[2] == Deliver(1)
    && acts[3] == Deliver(2)
    && acts[4] == Deliver(3)
    && acts[5] == Client(0, 8, b.req, b.now)
    && acts[6] == Deliver(5)
    && acts[7] == Tick(1, true)
    && acts[8] == Deliver(8)
    && acts[9] == Deliver(9)
  }

  lemma ScriptExists(a: DecidedValue, b: DecidedValue) returns (acts: seq<Action>)
    ensures Script(acts, a, b)
  {
    acts := [Client(0, 7, a.req, a.now), Deliver(0), Deliver(1), Deliver(2), Deliver(3),
             Client(0, 8, b.req, b.now), Deliver(5), Tick(1, true), Deliver(8), Deliver(9)];
  }

  // ---- the messages ----

  function AckOf(i: nat): Message { Message(Ack, i, 0, [], 1, 0, 0, 0, 0) }

  const PROBE: Message := Message(Probe, 1, 0, [], 0, 0, 4, 0, 0)

  function Own(a: DecidedValue): Message { Message(Prepare, 1, 0, [a], 1, 0, 4, 0, 0) }

  function Promise(b: DecidedValue): Message { Message(Prepare, 2, 1, [b], 2, 1, 4, 0, 0) }

  // ---- the replicas along the way ----

  function Holding(i: nat, a: DecidedValue): Replica { Start(i, 3).(log := [a]) }

  function Decided(a: DecidedValue): Replica {
    Asked(a).(followerAck := [1, 1, 0], decided := 1, applied := 1, db := After(a), pending := map[],
              ran := [a], logged := Logged([a]),
              replies := [Reply(Ticket(7, 0, a), 0, Answer(a), a.now, 0)])
  }

  function Truncated(a: DecidedValue): Replica {
    Decided(a).(followerAck := [1, 1, 1], log := [], logBase := 1)
  }

  function AskedAgain(a: DecidedValue, b: DecidedValue): Replica {
    Truncated(a).(pending := map[1 := Ticket(8, 0, b)], log := [b], nextSlot := 2, followerAck := [2, 1, 1])
  }

  function Informed(a: DecidedValue, b: DecidedValue): Replica {
    Holding(2, a).(log := [b], logBase := 1, decided := 1, applied := 1, db := After(a),
                   ran := [a], logged := Logged([a]))
  }

  function Candidate1(a: DecidedValue): Replica {
    Holding(1, a).(electionRound := 4, probeRound := 4, responses := [Own(a)])
  }

  function Promised(a: DecidedValue, b: DecidedValue): Replica {
    Informed(a, b).(probeRound := 4, leader := 1)
  }

  function Leading(a: DecidedValue, b: DecidedValue): Replica {
    Candidate1(a).(responses := [Own(a), Promise(b)], log := [b], logBase := 1, nextSlot := 2,
                   leader := 1, ackRound := 4, followerAck := [1, 2, 1],
                   decided := 1, applied := 1, db := After(a), ran := [a])
  }

  // ---- each step ----

  lemma Accepts(i: nat, a: DecidedValue)
    requires i == 1 || i == 2
    ensures Receive(Start(i, 3), Offer(a, 0)) == Effect(Holding(i, a), [Packet(0, AckOf(i))])
  {
    assert AcceptLog(Start(i, 3), Offer(a, 0)) == Holding(i, a);
    assert Holding(i, a).followerAck == [0, 0, 0];
    SortThree(0, 0, 0);
    NothingNew(Holding(i, a));
  }

  lemma Decides(a: DecidedValue)
    ensures Receive(Asked(a), AckOf(1)) == Effect(Decided(a), [])
  {
    var r := Asked(a).(followerAck := [1, 1, 0]);
    assert RecordAck(Asked(a), AckOf(1)) == r;
    SortThree(1, 1, 0);
    assert TryDecide(r) == r.(decided := 1);
    RunsFirst(a);
    assert MinOf(Decided(a).followerAck) == 0;
  }

  lemma RunsFirst(a: DecidedValue)
    ensures ApplyTo(Asked(a).(followerAck := [1, 1, 0], decided := 1), 1, true) == Decided(a)
  {
    AppliesFirst(Asked(a).(followerAck := [1, 1, 0], decided := 1), a, true);
  }

  lemma Truncates(a: DecidedValue)
    ensures Receive(Decided(a), AckOf(2)) == Effect(Truncated(a), [])
  {
    var r := Decided(a).(followerAck := [1, 1, 1]);
    assert RecordAck(Decided(a), AckOf(2)) == r;
    SortThree(1, 1, 1);
    assert TryDecide(r) == r && ApplyTo(r, 1, true) == r;
    assert MinOf(r.followerAck) == 1;
    assert r.log[1..] == [];
  }

  lemma AsksAgain(a: DecidedValue, b: DecidedValue)
    requires Proposable(b)
    ensures ClientPropose(Truncated(a), 8, b.req, b.now)
            == Effect(AskedAgain(a, b), [Packet(1, Offer(b, 1)), Packet(2, Offer(b, 1))])
  {
    assert Append(Truncated(a), Ticket(8, 0, b)) == AskedAgain(a, b);
    SortThree(2, 1, 1);
    assert MinOf([2, 1, 1]) == 1;
    NothingNew(AskedAgain(a, b));
    TwoProposals(AskedAgain(a, b), 1, 2);
  }

  lemma Learns(a: DecidedValue, b: DecidedValue)
    ensures Receive(Holding(2, a), Offer(b, 1)).r == Informed(a, b)
    ensures |Receive(Holding(2, a), Offer(b, 1)).out| == 1
  {
    var r := Holding(2, a);
    var r1 := r.(log := [a, b]);
    assert Written([a], 0, 1, [b]) == [a, b];
    assert AcceptLog(r, Offer(b, 1)) == r1;
    var r2 := r1.(decided := 1);
    assert r2.followerAck == [0, 0, 0];
    SortThree(0, 0, 0);
    assert TryDecide(r2) == r2;
    var r3 := ApplyOne(r2, true);
    assert ApplyTo(r2, 1, true) == r3;
    assert r3 == r2.(db := After(a), applied := 1, ran := [a], logged := Logged([a]));
    assert r3.log[1..] == [b];
  }

  lemma Stands(a: DecidedValue)
    ensures Timeout(Holding(1, a), true) == Effect(Candidate1(a), [Packet(0, PROBE), Packet(2, PROBE)])
  {
    assert Candidate(Holding(1, a)) == Candidate1(a);
    assert ProbeBelow(Candidate1(a), 1) == [Packet(0, PROBE)];
    assert ProbeBelow(Candidate1(a), 2) == [Packet(0, PROBE)];
    assert ProbeBelow(Candidate1(a), 3) == [Packet(0, PROBE), Packet(2, PROBE)];
  }

  lemma Promises(a: DecidedValue, b: DecidedValue)
    ensures Receive(Informed(a, b), PROBE) == Effect(Promised(a, b), [Packet(1, Promise(b))])
  {
  }

  function Elected(a: DecidedValue, b: DecidedValue): Replica {
    Candidate1(a).(responses := [Own(a), Promise(b)])
  }

  function CaughtUp(a: DecidedValue, b: DecidedValue): Replica {
    Elected(a, b).(decided := 1, applied := 1, db := After(a), ran := [a])
  }

  lemma PicksOther(a: DecidedValue, b: DecidedValue)
    ensures BestOf([Own(a), Promise(b)]) == Promise(b)
  {
    assert Front([Own(a), Promise(b)]) == [Own(a)];
  }

  lemma CatchesUp(a: DecidedValue, b: DecidedValue)
    ensures CatchUp(Elected(a, b), 1) == CaughtUp(a, b)
  {
    AppliesFirst(Elected(a, b), a, false);
  }

  lemma Adopts(a: DecidedValue, b: DecidedValue)
    ensures Adopt(CaughtUp(a, b), Promise(b)) == Leading(a, b)
  {
    assert seq(3, _ => 1)[1 := 2] == [1, 2, 1];
  }

  lemma Leads(a: DecidedValue, b: DecidedValue)
    ensures Receive(Candidate1(a), Promise(b)).r == Leading(a, b)
  {
    PicksOther(a, b);
    CatchesUp(a, b);
    Adopts(a, b);
    SortThree(1, 2, 1);
    assert MinOf([1, 2, 1]) == 1;
    NothingNew(Leading(a, b));
    assert Candidate1(a).(responses := Candidate1(a).responses + [Promise(b)]) == Elected(a, b);
  }

  // ---- the run ----

  lemma Step2(s: Sys, a: DecidedValue, x: Replica, y: Replica)
    requires Scene(s, x, Start(1, 3), y, 2, {})
    requires s.packets == [Packet(1, Offer(a, 0)), Packet(2, Offer(a, 0))]
    ensures var s' := Step(s, Deliver(0));
            && Scene(s', x, Holding(1, a), y, 3, {0})
            && s'.packets[1] == Packet(2, Offer(a, 0)) && s'.packets[2] == Packet(0, AckOf(1))
  {
    Accepts(1, a);
    PutDelivery(s, 0, 1, Offer(a, 0), Receive(Start(1, 3), Offer(a, 0)));
  }

  lemma Step3(s: Sys, a: DecidedValue, x: Replica, y: Replica)
    requires Scene(s, x, y, Start(2, 3), 3, {0})
    requires s.packets[1] == Packet(2, Offer(a, 0)) && s.packets[2] == Packet(0, AckOf(1))
    ensures var s' := Step(s, Deliver(1));
            && Scene(s', x, y, Holding(2, a), 4, {0, 1})
            && s'.packets[2] == Packet(0, AckOf(1)) && s'.packets[3] == Packet(0, AckOf(2))
  {
    Accepts(2, a);
    PutDelivery(s, 1, 2, Offer(a, 0), Receive(Start(2, 3), Offer(a, 0)));
  }

  lemma Step4(s: Sys, a: DecidedValue, x: Replica, y: Replica)
    requires Scene(s, Asked(a), x, y, 4, {0, 1})
    requires s.packets[2] == Packet(0, AckOf(1)) && s.packets[3] == Packet(0, AckOf(2))
    ensures var s' := Step(s, Deliver(2));
            && Scene(s', Decided(a), x, y, 4, {0, 1, 2})
            && s'.packets[3] == Packet(0, AckOf(2))
  {
    Decides(a);
    PutDelivery(s, 2, 0, AckOf(1), Receive(Asked(a), AckOf(1)));
  }

  lemma Step5(s: Sys, a: DecidedValue, x: Replica, y: Replica)
    requires Scene(s, Decided(a), x, y, 4, {0, 1, 2})
    requires s.packets[3] == Packet(0, AckOf(2))
    ensures Scene(Step(s, Deliver(3)), Truncated(a), x, y, 4, {0, 1, 2, 3})
  {
    var e := ReceiveEffect(Decided(a), AckOf(2));
    Truncates(a);
    PutDelivery(s, 3, 0, AckOf(2), e);
  }

  lemma Step6(s: Sys, a: DecidedValue, b: DecidedValue, x: Replica, y: Replica)
    requires Proposable(b)
    requires Scene(s, Truncated(a), x, y, 4, {0, 1, 2, 3})
    ensures var s' := Step(s, Client(0, 8, b.req, b.now));
            && Scene(s', AskedAgain(a, b), x, y, 6, {0, 1, 2, 3})
            && s'.packets[5] == Packet(2, Offer(b, 1))
  {
    var e := AgainEffect(a, b);
    PutClient(s, 0, 8, b.req, b.now, e);
  }

  lemma AgainEffect(a: DecidedValue, b: DecidedValue) returns (e: Effect)
    requires Proposable(b)
    ensures e == ClientPropose(Truncated(a), 8, b.req, b.now) && e.r == AskedAgain(a, b)
    ensures |e.out| == 2 && e.out[1] == Packet(2, Offer(b, 1))
  {
    AsksAgain(a, b);
    e := ClientPropose(Truncated(a), 8, b.req, b.now);
  }

  lemma Step7(s: Sys, a: DecidedValue, b: DecidedValue, x: Replica, y: Replica)
    requires Scene(s, x, y, Holding(2, a), 6, {0, 1, 2, 3})
    requires s.packets[5] == Packet(2, Offer(b, 1))
    ensures Scene(Step(s, Deliver(5)), x, y, Informed(a, b), 7, {0, 1, 2, 3, 5})
  {
    var e := ReceiveEffect(Holding(2, a), Offer(b, 1));
    Learns(a, b);
    PutDelivery(s, 5, 2, Offer(b, 1), e);
  }

  lemma Step8(s: Sys, a: DecidedValue, b: DecidedValue, x: Replica, y: Replica)
    requires Scene(s, x, Holding(1, a), y, 7, {0, 1, 2, 3, 5})
    ensures var s' := Step(s, Tick(1, true));
            && Scene(s', x, Candidate1(a), y, 9, {0, 1, 2, 3, 5})
            && s'.packets[8] == Packet(2, PROBE)
  {
    Stands(a);
    PutTick(s, 1, true, Timeout(Holding(1, a), true));
  }

  lemma Step9(s: Sys, a: DecidedValue, b: DecidedValue, x: Replica, y: Replica)
    requires Scene(s, x, y, Informed(a, b), 9, {0, 1, 2, 3, 5})
    requires s.packets[8] == Packet(2, PROBE)
    ensures var s' := Step(s, Deliver(8));
            && Scene(s', x, y, Promised(a, b), 10, {0, 1, 2, 3, 5, 8})
            && s'.packets[9] == Packet(1, Promise(b))
  {
    Promises(a, b);
    PutDelivery(s, 8, 2, PROBE, Receive(Informed(a, b), PROBE));
  }

  lemma Step10(s: Sys, a: DecidedValue, b: DecidedValue)
    requires |s.rs| == 3 && s.rs[1] == Candidate1(a) && InFlight(s, 9)
    requires s.packets[9] == Packet(1, Promise(b))
    ensures var s' := Step(s, Deliver(9)); |s'.rs| == 3 && s'.rs[1] == Leading(a, b)
  {
    Leads(a, b);
    PutDelivery(s, 9, 1, Promise(b), Receive(Candidate1(a), Promise(b)));
  }

  lemma ToAcceptance(acts: seq<Action>, a: DecidedValue, b: DecidedValue)
    requires Script(acts, a, b) && Proposable(a)
    ensures var s := Run(3, acts[..3]);
            && Scene(s, Asked(a), Holding(1, a), Holding(2, a), 4, {0, 1})
            && s.packets[2] == Packet(0, AckOf(1)) && s.packets[3] == Packet(0, AckOf(2))
  {
    StartScene();
    Onward(acts, 0);
    FirstAsk(Run(3, acts[..0]), a, Start(1, 3), Start(2, 3));
    Onward(acts, 1);
    Step2(Run(3, acts[..1]), a, Asked(a), Start(2, 3));
    Onward(acts, 2);
    Step3(Run(3, acts[..2]), a, Asked(a), Holding(1, a));
  }

  lemma ToTruncation(acts: seq<Action>, a: DecidedValue, b: DecidedValue)
    requires Script(acts, a, b) && Proposable(a)
    ensures Scene(Run(3, acts[..5]), Truncated(a), Holding(1, a), Holding(2, a), 4, {0, 1, 2, 3})
  {
    ToAcceptance(acts, a, b);
    Onward(acts, 3);
    Step4(Run(3, acts[..3]), a, Holding(1, a), Holding(2, a));
    Onward(acts, 4);
    Step5(Run(3, acts[..4]), a, Holding(1, a), Holding(2, a));
  }

  lemma ToNews(acts: seq<Action>, a: DecidedValue, b: DecidedValue)
    requires Script(acts, a, b) && Proposable(a) && Proposable(b)
    ensures Scene(Run(3, acts[..7]), AskedAgain(a, b), Holding(1, a), Informed(a, b), 7,
                  {0, 1, 2, 3, 5})
  {
    ToTruncation(acts, a, b);
    Onward(acts, 5);
    Step6(Run(3, acts[..5]), a, b, Holding(1, a), Holding(2, a));
    Onward(acts, 6);
    Step7(Run(3, acts[..6]), a, b, AskedAgain(a, b), Holding(1, a));
  }

  lemma ToPromise(acts: seq<Action>, a: DecidedValue, b: DecidedValue)
    requires Script(acts, a, b) && Proposable(a) && Proposable(b)
    ensures var s := Run(3, acts[..9]);
            && Scene(s, AskedAgain(a, b), Candidate1(a), Promised(a, b), 10, {0, 1, 2, 3, 5, 8})
            && s.packets[9] == Packet(1, Promise(b))
  {
    ToNews(acts, a, b);
    Onward(acts, 7);
    Step8(Run(3, acts[..7]), a, b, AskedAgain(a, b), Informed(a, b));
    Onward(acts, 8);
    Step9(Run(3, acts[..8]), a, b, AskedAgain(a, b), Candidate1(a));
  }

  lemma ToEnd(acts: seq<Action>, a: DecidedValue, b: DecidedValue)
    requires Script(acts, a, b) && Proposable(a) && Proposable(b)
    ensures |Run(3, acts).rs| == 3 && Run(3, acts).rs[1] == Leading(a, b)
  {
    ToPromise(acts, a, b);
    Onward(acts, 9);
    Step10(Run(3, acts[..9]), a, b);
    assert acts[..10] == acts;
  }

  // Whatever the two requests, replica 1 ends having applied the first and logged nothing.
  lemma AppliedUnlogged(a: DecidedValue, b: DecidedValue) returns (acts: seq<Action>)
    requires Proposable(a) && Proposable(b)
    ensures Script(acts, a, b) && |Run(3, acts).rs| == 3
    ensures var r := Run(3, acts).rs[1];
            r.ran == [a] && r.db == TM.Next(TM.INIT, a) && r.logged == []
  {
    acts := ScriptExists(a, b);
    ToEnd(acts, a, b);
  }

  const CREATE: Request := Create(1, "a", DEFAULT_SPEC, None, None)

  // So its log need not replay to its database: here the database holds a task, and replaying the
  // log gives an empty table.
  lemma LogFallsShort() returns (acts: seq<Action>)
    ensures |Run(3, acts).rs| == 3
    ensures var r := Run(3, acts).rs[1];
            r.logged != Logged(r.ran) && TM.Replay(r.logged) != r.db && |r.db.order| == 1
    ensures Journal.Missed(3, acts, 1) == 1
  {
    var a := ValueOf(CREATE, 0);
    acts := AppliedUnlogged(a, a);
    LoggedOne(a);
    CreatesOne(a);
    Journal.RunLacks(3, acts, 1);
  }

  lemma CreatesOne(a: DecidedValue)
    requires a.req == CREATE
    ensures |TM.Next(TM.INIT, a).order| == 1
  {
  }
}

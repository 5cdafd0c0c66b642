/** Two runs in which an accepted client is never answered. In both, replica 0 accepts client 7 and is
    cut off, and replica 1 takes over with an empty log; then replica 0 wins round 6. In the first,
    its catch-up applies slot 0 and passes the client over; in the second, its log was cut, and it
    hands slot 0 out again to another client. */
module LostClients {
  import opened Common
  import opened TaskTypes
  import opened Quorums
  import opened ReplicaSpec
  import opened Cluster
  import opened Trio
  import TM = TaskMachine
  import Agreement
  import Waiting

  // ---- what both runs share: replica 0 stands for round 6 ----

  const PROBE6: Message := Message(Probe, 0, 0, [], 0, 0, 6, 0, 0)

  lemma StandsForSix(r: Replica, own: Message)
    requires r.index == 0 && r.n == 3 && r.leader == 1 && r.probeRound == 4 && r.decided == 0
    requires own == Message(Prepare, 0, r.logBase, r.log, End(r), 0, 6, r.ackRound, 0)
    ensures Timeout(r, true)
            == Effect(r.(electionRound := 6, probeRound := 6, responses := [own]),
                      [Packet(1, PROBE6), Packet(2, PROBE6)])
  {
    var c := r.(electionRound := 6, probeRound := 6, responses := [own]);
    assert NextRound(r) == 6;
    assert Candidate(r) == c;
    assert ProbeBelow(c, 1) == [];
    assert ProbeBelow(c, 2) == [Packet(1, PROBE6)];
    assert ProbeBelow(c, 3) == [Packet(1, PROBE6), Packet(2, PROBE6)];
  }

  // ---- handed out again ----

  predicate TakenScript(acts: seq<Action>, a: DecidedValue, b: DecidedValue) {
    && |acts| == 9
    && TakesOver(acts, a)
    && acts[4] == Deliver(5)
    && acts[5] == Tick(0, true)
    && acts[6] == Deliver(9)
    && acts[7] == Deliver(10)
    && acts[8] == Client(0, 55, b.req, b.now)
  }

  lemma TakenScriptExists(a: DecidedValue, b: DecidedValue) returns (acts: seq<Action>)
    ensures TakenScript(acts, a, b)
  {
    acts := [Client(0, 7, a.req, a.now), Tick(1, true), Deliver(3), Deliver(4), Deliver(5),
             Tick(0, true), Deliver(9), Deliver(10), Client(0, 55, b.req, b.now)];
  }

  function CutOff(a: DecidedValue): Replica {
    Asked(a).(probeRound := 4, leader := 1, ackRound := 4, log := [])
  }

  const EMPTY0: Message := Message(Prepare, 0, 0, [], 0, 0, 6, 4, 0)
  const EMPTY2: Message := Message(Prepare, 2, 0, [], 0, 0, 6, 0, 0)

  function Standing(a: DecidedValue): Replica {
    CutOff(a).(electionRound := 6, probeRound := 6, responses := [EMPTY0])
  }

  const PROMISED6: Replica := PROMISED.(probeRound := 6, leader := 0)

  function Again(a: DecidedValue): Replica {
    Standing(a).(responses := [EMPTY0, EMPTY2], leader := 0, ackRound := 6, nextSlot := 0,
                 followerAck := [0, 0, 0])
  }

  function Replaced(a: DecidedValue, b: DecidedValue): Replica {
    Again(a).(pending := map[0 := Ticket(55, 6, b)], log := [b], nextSlot := 1, followerAck := [1, 0, 0])
  }

  lemma Cuts(a: DecidedValue)
    ensures Receive(Asked(a), Proposal([], 0, 0, 4, 1)).r == CutOff(a)
    ensures |Receive(Asked(a), Proposal([], 0, 0, 4, 1)).out| == 1
  {
    var m := Proposal([], 0, 0, 4, 1);
    var r := Asked(a).(probeRound := 4, leader := 1);
    assert StepDown(Asked(a), m) == r;
    assert Written([a], 0, 0, []) == [a] && CutAt([a], 0, 0) == [];
    assert AcceptLog(r, m) == CutOff(a);
    SortThree(1, 0, 0);
    NothingNew(CutOff(a));
  }

  lemma PromisesSix()
    ensures Receive(PROMISED, PROBE6) == Effect(PROMISED6, [Packet(0, EMPTY2)])
  {
  }

  lemma PicksOwn()
    ensures BestOf([EMPTY0, EMPTY2]) == EMPTY0
  {
    assert Front([EMPTY0, EMPTY2]) == [EMPTY0];
  }

  lemma AdoptsOwn(a: DecidedValue, r: Replica)
    requires r == Standing(a).(responses := [EMPTY0, EMPTY2])
    ensures CatchUp(r, 0) == r && Adopt(r, EMPTY0) == Again(a)
  {
    assert seq(3, _ => 0)[0 := 0] == [0, 0, 0];
  }

  lemma WinsAgain(a: DecidedValue)
    ensures Receive(Standing(a), EMPTY2).r == Again(a)
  {
    PicksOwn();
    AdoptsOwn(a, Standing(a).(responses := [EMPTY0, EMPTY2]));
    SortThree(0, 0, 0);
    NothingNew(Again(a));
    assert Standing(a).(responses := Standing(a).responses + [EMPTY2])
        == Standing(a).(responses := [EMPTY0, EMPTY2]);
  }

  lemma Replaces(a: DecidedValue, b: DecidedValue)
    requires Proposable(b)
    ensures ClientPropose(Again(a), 55, b.req, b.now).r == Replaced(a, b)
  {
    assert Append(Again(a), Ticket(55, 6, b)) == Replaced(a, b);
    SortThree(1, 0, 0);
    NothingNew(Replaced(a, b));
  }

  lemma CutStep(s: Sys, a: DecidedValue, x: Replica, y: Replica)
    requires Scene(s, Asked(a), x, y, 7, {3, 4})
    requires s.packets[5] == Packet(0, Proposal([], 0, 0, 4, 1))
    ensures Scene(Step(s, Deliver(5)), CutOff(a), x, y, 8, {3, 4, 5})
  {
    var e := ReceiveEffect(Asked(a), Proposal([], 0, 0, 4, 1));
    Cuts(a);
    PutDelivery(s, 5, 0, Proposal([], 0, 0, 4, 1), e);
  }

  lemma StandAgainStep(s: Sys, a: DecidedValue, x: Replica, y: Replica)
    requires Scene(s, CutOff(a), x, y, 8, {3, 4, 5})
    ensures var s' := Step(s, Tick(0, true));
            Scene(s', Standing(a), x, y, 10, {3, 4, 5}) && s'.packets[9] == Packet(2, PROBE6)
  {
    StandsForSix(CutOff(a), EMPTY0);
    PutTick(s, 0, true, Timeout(CutOff(a), true));
  }

  lemma PromiseSixStep(s: Sys, x: Replica, y: Replica)
    requires Scene(s, x, y, PROMISED, 10, {3, 4, 5}) && s.packets[9] == Packet(2, PROBE6)
    ensures var s' := Step(s, Deliver(9));
            Scene(s', x, y, PROMISED6, 11, {3, 4, 5, 9}) && s'.packets[10] == Packet(0, EMPTY2)
  {
    PromisesSix();
    PutDelivery(s, 9, 2, PROBE6, Receive(PROMISED, PROBE6));
  }

  lemma WinAgainStep(s: Sys, a: DecidedValue)
    requires |s.rs| == 3 && s.rs[0] == Standing(a) && InFlight(s, 10)
    requires s.packets[10] == Packet(0, EMPTY2)
    ensures var s' := Step(s, Deliver(10)); |s'.rs| == 3 && s'.rs[0] == Again(a)
  {
    var e := ReceiveEffect(Standing(a), EMPTY2);
    WinsAgain(a);
    PutDelivery(s, 10, 0, EMPTY2, e);
  }

  lemma ReplaceStep(s: Sys, a: DecidedValue, b: DecidedValue)
    requires Proposable(b) && |s.rs| == 3 && s.rs[0] == Again(a)
    ensures var s' := Step(s, Client(0, 55, b.req, b.now));
            |s'.rs| == 3 && s'.rs[0] == Replaced(a, b)
  {
    Replaces(a, b);
    PutClient(s, 0, 55, b.req, b.now, ClientPropose(Again(a), 55, b.req, b.now));
  }

  lemma ToStanding(acts: seq<Action>, a: DecidedValue, b: DecidedValue)
    requires TakenScript(acts, a, b) && Proposable(a)
    ensures var s := Run(3, acts[..6]);
            Scene(s, Standing(a), ELECTED, PROMISED, 10, {3, 4, 5}) && s.packets[9] == Packet(2, PROBE6)
  {
    ToTakeover(acts, a);
    Onward(acts, 4);
    CutStep(Run(3, acts[..4]), a, ELECTED, PROMISED);
    Onward(acts, 5);
    StandAgainStep(Run(3, acts[..5]), a, ELECTED, PROMISED);
  }

  lemma ToPromiseSix(acts: seq<Action>, a: DecidedValue, b: DecidedValue)
    requires TakenScript(acts, a, b) && Proposable(a)
    ensures var s := Run(3, acts[..7]);
            && Scene(s, Standing(a), ELECTED, PROMISED6, 11, {3, 4, 5, 9})
            && s.packets[10] == Packet(0, EMPTY2)
  {
    ToStanding(acts, a, b);
    Onward(acts, 6);
    PromiseSixStep(Run(3, acts[..6]), Standing(a), ELECTED);
  }

  lemma ToAgain(acts: seq<Action>, a: DecidedValue, b: DecidedValue)
    requires TakenScript(acts, a, b) && Proposable(a)
    ensures var s := Run(3, acts[..8]); |s.rs| == 3 && s.rs[0] == Again(a)
  {
    ToPromiseSix(acts, a, b);
    Onward(acts, 7);
    WinAgainStep(Run(3, acts[..7]), a);
  }

  // Client 7 waited on slot 0 before the last action, and after it client 55 does; slot 0 is not
  // applied, and nobody has been answered.
  lemma ClientReplaced(a: DecidedValue, b: DecidedValue) returns (acts: seq<Action>)
    requires Proposable(a) && Proposable(b)
    ensures TakenScript(acts, a, b)
    ensures |Run(3, acts[..8]).rs| == 3 == |Run(3, acts).rs|
    ensures Waiting.Waits(Run(3, acts[..8]).rs[0], 0, Ticket(7, 0, a))
    ensures Run(3, acts).rs[0] == Replaced(a, b)
    ensures var r := Run(3, acts).rs[0];
            && r.applied == 0 && r.replies == []
            && r.pending == map[0 := Ticket(55, 6, b)]
  {
    acts := TakenScriptExists(a, b);
    ToAgain(acts, a, b);
    Onward(acts, 8);
    ReplaceStep(Run(3, acts[..8]), a, b);
    assert acts[..9] == acts;
  }

  // Whatever happens after that run, client 7 is never answered.
  lemma ReplacedForever(a: DecidedValue, b: DecidedValue, more: seq<Action>) returns (acts: seq<Action>)
    requires Proposable(a) && Proposable(b)
    ensures TakenScript(acts, a, b)
    ensures var r := Agreement.ReplicaAt(3, acts + more, 0);
            && !Waiting.Waits(r, 0, Ticket(7, 0, a))
            && !Waiting.Answered(r.replies, 0, Ticket(7, 0, a))
  {
    acts := ClientReplaced(a, b);
    Waiting.GoneForever(3, acts, more, 0, 0, Ticket(7, 0, a));
  }

  // ---- passed over ----

  predicate PassedScript(acts: seq<Action>, a: DecidedValue, b: DecidedValue, c: DecidedValue) {
    && |acts| == 14
    && TakesOver(acts, a)
    && acts[4] == Client(1, 8, b.req, b.now)
    && acts[5] == Deliver(7)
    && acts[6] == Deliver(8)
    && acts[7] == Deliver(9)
    && acts[8] == Deliver(10)
    && acts[9] == Client(1, 9, c.req, c.now)
    && acts[10] == Deliver(12)
    && acts[11] == Tick(0, true)
    && acts[12] == Deliver(15)
    && acts[13] == Deliver(16)
  }

  lemma PassedScriptExists(a: DecidedValue, b: DecidedValue, c: DecidedValue)
    returns (acts: seq<Action>)
    ensures PassedScript(acts, a, b, c)
  {
    acts := [Client(0, 7, a.req, a.now), Tick(1, true), Deliver(3), Deliver(4),
             Client(1, 8, b.req, b.now), Deliver(7), Deliver(8), Deliver(9), Deliver(10),
             Client(1, 9, c.req, c.now), Deliver(12), Tick(0, true), Deliver(15), Deliver(16)];
  }

  function AckTo1(i: nat): Message { Message(Ack, i, 0, [], 1, 0, 4, 0, 0) }

  function News(c: DecidedValue): Message { Message(Propose, 1, 1, [c], 0, 1, 4, 0, 1) }

  function Proposing(b: DecidedValue): Replica {
    ELECTED.(pending := map[0 := Ticket(8, 4, b)], log := [b], nextSlot := 1, followerAck := [0, 1, 0])
  }

  function Overwritten(a: DecidedValue, b: DecidedValue): Replica {
    Asked(a).(probeRound := 4, leader := 1, ackRound := 4, log := [b])
  }

  function Accepting(b: DecidedValue): Replica { PROMISED.(ackRound := 4, log := [b]) }

  function Deciding(b: DecidedValue): Replica {
    Proposing(b).(followerAck := [1, 1, 0], decided := 1, applied := 1, db := After(b), pending := map[],
                  ran := [b], logged := Logged([b]),
                  replies := [Reply(Ticket(8, 4, b), 0, Answer(b), b.now, 4)])
  }

  function Cleared(b: DecidedValue): Replica {
    Deciding(b).(followerAck := [1, 1, 1], log := [], logBase := 1)
  }

  function Further(b: DecidedValue, c: DecidedValue): Replica {
    Cleared(b).(pending := map[1 := Ticket(9, 4, c)], log := [c], nextSlot := 2, followerAck := [1, 2, 1])
  }

  function Told(b: DecidedValue, c: DecidedValue): Replica {
    Accepting(b).(log := [c], logBase := 1, decided := 1, applied := 1, db := After(b),
                  ran := [b], logged := Logged([b]))
  }

  function Own6(b: DecidedValue): Message { Message(Prepare, 0, 0, [b], 1, 0, 6, 4, 0) }

  function Other6(c: DecidedValue): Message { Message(Prepare, 2, 1, [c], 2, 1, 6, 4, 0) }

  function Hoping(a: DecidedValue, b: DecidedValue): Replica {
    Overwritten(a, b).(electionRound := 6, probeRound := 6, responses := [Own6(b)])
  }

  function Promising(b: DecidedValue, c: DecidedValue): Replica {
    Told(b, c).(probeRound := 6, leader := 0)
  }

  function Both(a: DecidedValue, b: DecidedValue, c: DecidedValue): Replica {
    Hoping(a, b).(responses := [Own6(b), Other6(c)])
  }

  function CaughtUp(a: DecidedValue, b: DecidedValue, c: DecidedValue): Replica {
    Both(a, b, c).(decided := 1, applied := 1, db := After(b), ran := [b])
  }

  function Leading(a: DecidedValue, b: DecidedValue, c: DecidedValue): Replica {
    CaughtUp(a, b, c).(log := [c], logBase := 1, nextSlot := 2, leader := 0, ackRound := 6,
                       followerAck := [2, 1, 1])
  }

  lemma Proposes(b: DecidedValue) returns (e: Effect)
    requires Proposable(b)
    ensures e == ClientPropose(ELECTED, 8, b.req, b.now) && e.r == Proposing(b)
    ensures e.out == [Packet(0, Proposal([b], 0, 0, 4, 1)), Packet(2, Proposal([b], 0, 0, 4, 1))]
  {
    assert Append(ELECTED, Ticket(8, 4, b)) == Proposing(b);
    SortThree(0, 1, 0);
    NothingNew(Proposing(b));
    TwoProposals(Proposing(b), 0, 2);
    e := ClientPropose(ELECTED, 8, b.req, b.now);
  }

  lemma Overwrites(a: DecidedValue, b: DecidedValue)
    ensures Receive(Asked(a), Proposal([b], 0, 0, 4, 1)) == Effect(Overwritten(a, b), [Packet(1, AckTo1(0))])
  {
    var m := Proposal([b], 0, 0, 4, 1);
    var r := Asked(a).(probeRound := 4, leader := 1);
    assert StepDown(Asked(a), m) == r;
    assert Written([a], 0, 0, [b]) == [b];
    assert AcceptLog(r, m) == Overwritten(a, b);
    SortThree(1, 0, 0);
    NothingNew(Overwritten(a, b));
  }

  lemma Accepts(b: DecidedValue)
    ensures Receive(PROMISED, Proposal([b], 0, 0, 4, 1)) == Effect(Accepting(b), [Packet(1, AckTo1(2))])
  {
    assert AcceptLog(PROMISED, Proposal([b], 0, 0, 4, 1)) == Accepting(b);
    assert Accepting(b).followerAck == [0, 0, 0];
    SortThree(0, 0, 0);
    NothingNew(Accepting(b));
  }

  lemma RunsFirst(b: DecidedValue)
    ensures ApplyTo(Proposing(b).(followerAck := [1, 1, 0], decided := 1), 1, true) == Deciding(b)
  {
    AppliesFirst(Proposing(b).(followerAck := [1, 1, 0], decided := 1), b, true);
  }

  lemma Decides(b: DecidedValue)
    ensures Receive(Proposing(b), AckTo1(0)) == Effect(Deciding(b), [])
  {
    var r := Proposing(b).(followerAck := [1, 1, 0]);
    assert RecordAck(Proposing(b), AckTo1(0)) == r;
    SortThree(1, 1, 0);
    assert TryDecide(r) == r.(decided := 1);
    RunsFirst(b);
    assert MinOf(Deciding(b).followerAck) == 0;
  }

  lemma Clears(b: DecidedValue)
    ensures Receive(Deciding(b), AckTo1(2)) == Effect(Cleared(b), [])
  {
    var r := Deciding(b).(followerAck := [1, 1, 1]);
    assert RecordAck(Deciding(b), AckTo1(2)) == r;
    SortThree(1, 1, 1);
    assert TryDecide(r) == r && ApplyTo(r, 1, true) == r;
    assert MinOf(r.followerAck) == 1;
    assert r.log[1..] == [];
  }

  lemma ProposesMore(b: DecidedValue, c: DecidedValue) returns (e: Effect)
    requires Proposable(c)
    ensures e == ClientPropose(Cleared(b), 9, c.req, c.now) && e.r == Further(b, c)
    ensures e.out == [Packet(0, News(c)), Packet(2, News(c))]
  {
    assert Append(Cleared(b), Ticket(9, 4, c)) == Further(b, c);
    SortThree(1, 2, 1);
    assert MinOf([1, 2, 1]) == 1;
    NothingNew(Further(b, c));
    TwoProposals(Further(b, c), 0, 2);
    e := ClientPropose(Cleared(b), 9, c.req, c.now);
  }

  lemma Learns(b: DecidedValue, c: DecidedValue)
    ensures Receive(Accepting(b), News(c)).r == Told(b, c)
    ensures |Receive(Accepting(b), News(c)).out| == 1
  {
    var r := Accepting(b);
    var r1 := r.(log := [b, c]);
    assert Written([b], 0, 1, [c]) == [b, c];
    assert AcceptLog(r, News(c)) == r1;
    var r2 := r1.(decided := 1);
    assert r2.followerAck == [0, 0, 0];
    SortThree(0, 0, 0);
    assert TryDecide(r2) == r2;
    var r3 := ApplyOne(r2, true);
    assert ApplyTo(r2, 1, true) == r3;
    assert r3 == r2.(db := After(b), applied := 1, ran := [b], logged := Logged([b]));
    assert r3.log[1..] == [c];
  }

  lemma Promises6(b: DecidedValue, c: DecidedValue)
    ensures Receive(Told(b, c), PROBE6) == Effect(Promising(b, c), [Packet(0, Other6(c))])
  {
  }

  lemma PicksOther(b: DecidedValue, c: DecidedValue)
    ensures BestOf([Own6(b), Other6(c)]) == Other6(c)
  {
    assert Front([Own6(b), Other6(c)]) == [Own6(b)];
  }

  lemma CatchesUp(a: DecidedValue, b: DecidedValue, c: DecidedValue)
    ensures CatchUp(Both(a, b, c), 1) == CaughtUp(a, b, c)
  {
    AppliesFirst(Both(a, b, c), b, false);
  }

  lemma AdoptsOther(a: DecidedValue, b: DecidedValue, c: DecidedValue)
    ensures Adopt(CaughtUp(a, b, c), Other6(c)) == Leading(a, b, c)
  {
    assert seq(3, _ => 1)[0 := 2] == [2, 1, 1];
  }

  lemma Leads(a: DecidedValue, b: DecidedValue, c: DecidedValue)
    ensures Receive(Hoping(a, b), Other6(c)).r == Leading(a, b, c)
  {
    PicksOther(b, c);
    CatchesUp(a, b, c);
    AdoptsOther(a, b, c);
    SortThree(2, 1, 1);
    assert MinOf([2, 1, 1]) == 1;
    NothingNew(Leading(a, b, c));
    assert Hoping(a, b).(responses := Hoping(a, b).responses + [Other6(c)]) == Both(a, b, c);
  }

  lemma ProposeStep(s: Sys, b: DecidedValue, x: Replica, y: Replica)
    requires Proposable(b) && Scene(s, x, ELECTED, y, 7, {3, 4})
    ensures var s' := Step(s, Client(1, 8, b.req, b.now));
            && Scene(s', x, Proposing(b), y, 9, {3, 4})
            && s'.packets[7] == Packet(0, Proposal([b], 0, 0, 4, 1))
            && s'.packets[8] == Packet(2, Proposal([b], 0, 0, 4, 1))
  {
    var e := Proposes(b);
    PutClient(s, 1, 8, b.req, b.now, e);
  }

  lemma OverwriteStep(s: Sys, a: DecidedValue, b: DecidedValue, x: Replica, y: Replica)
    requires Scene(s, Asked(a), x, y, 9, {3, 4})
    requires s.packets[7] == Packet(0, Proposal([b], 0, 0, 4, 1))
    ensures var s' := Step(s, Deliver(7));
            && Scene(s', Overwritten(a, b), x, y, 10, {3, 4, 7})
            && s'.packets[8] == s.packets[8] && s'.packets[9] == Packet(1, AckTo1(0))
  {
    var e := ReceiveEffect(Asked(a), Proposal([b], 0, 0, 4, 1));
    Overwrites(a, b);
    PutDelivery(s, 7, 0, Proposal([b], 0, 0, 4, 1), e);
  }

  lemma AcceptStep(s: Sys, b: DecidedValue, x: Replica, y: Replica)
    requires Scene(s, x, y, PROMISED, 10, {3, 4, 7})
    requires s.packets[8] == Packet(2, Proposal([b], 0, 0, 4, 1))
    ensures var s' := Step(s, Deliver(8));
            && Scene(s', x, y, Accepting(b), 11, {3, 4, 7, 8})
            && s'.packets[9] == s.packets[9] && s'.packets[10] == Packet(1, AckTo1(2))
  {
    var e := ReceiveEffect(PROMISED, Proposal([b], 0, 0, 4, 1));
    Accepts(b);
    PutDelivery(s, 8, 2, Proposal([b], 0, 0, 4, 1), e);
  }

  lemma DecideStep(s: Sys, b: DecidedValue, x: Replica, y: Replica)
    requires Scene(s, x, Proposing(b), y, 11, {3, 4, 7, 8})
    requires s.packets[9] == Packet(1, AckTo1(0))
    ensures var s' := Step(s, Deliver(9));
            && Scene(s', x, Deciding(b), y, 11, {3, 4, 7, 8, 9}) && s'.packets[10] == s.packets[10]
  {
    var e := ReceiveEffect(Proposing(b), AckTo1(0));
    Decides(b);
    PutDelivery(s, 9, 1, AckTo1(0), e);
  }

  lemma ClearStep(s: Sys, b: DecidedValue, x: Replica, y: Replica)
    requires Scene(s, x, Deciding(b), y, 11, {3, 4, 7, 8, 9})
    requires s.packets[10] == Packet(1, AckTo1(2))
    ensures Scene(Step(s, Deliver(10)), x, Cleared(b), y, 11, {3, 4, 7, 8, 9, 10})
  {
    var e := ReceiveEffect(Deciding(b), AckTo1(2));
    Clears(b);
    PutDelivery(s, 10, 1, AckTo1(2), e);
  }

  lemma MoreStep(s: Sys, b: DecidedValue, c: DecidedValue, x: Replica, y: Replica)
    requires Proposable(c) && Scene(s, x, Cleared(b), y, 11, {3, 4, 7, 8, 9, 10})
    ensures var s' := Step(s, Client(1, 9, c.req, c.now));
            && Scene(s', x, Further(b, c), y, 13, {3, 4, 7, 8, 9, 10})
            && s'.packets[12] == Packet(2, News(c))
  {
    var e := ProposesMore(b, c);
    PutClient(s, 1, 9, c.req, c.now, e);
  }

  lemma LearnStep(s: Sys, b: DecidedValue, c: DecidedValue, x: Replica, y: Replica)
    requires Scene(s, x, y, Accepting(b), 13, {3, 4, 7, 8, 9, 10})
    requires s.packets[12] == Packet(2, News(c))
    ensures Scene(Step(s, Deliver(12)), x, y, Told(b, c), 14, {3, 4, 7, 8, 9, 10, 12})
  {
    var e := ReceiveEffect(Accepting(b), News(c));
    Learns(b, c);
    PutDelivery(s, 12, 2, News(c), e);
  }

  lemma HopeStep(s: Sys, a: DecidedValue, b: DecidedValue, x: Replica, y: Replica)
    requires Scene(s, Overwritten(a, b), x, y, 14, {3, 4, 7, 8, 9, 10, 12})
    ensures var s' := Step(s, Tick(0, true));
            && Scene(s', Hoping(a, b), x, y, 16, {3, 4, 7, 8, 9, 10, 12})
            && s'.packets[15] == Packet(2, PROBE6)
  {
    StandsForSix(Overwritten(a, b), Own6(b));
    PutTick(s, 0, true, Timeout(Overwritten(a, b), true));
  }

  lemma PromiseStep6(s: Sys, b: DecidedValue, c: DecidedValue, x: Replica, y: Replica)
    requires Scene(s, x, y, Told(b, c), 16, {3, 4, 7, 8, 9, 10, 12})
    requires s.packets[15] == Packet(2, PROBE6)
    ensures var s' := Step(s, Deliver(15));
            && Scene(s', x, y, Promising(b, c), 17, {3, 4, 7, 8, 9, 10, 12, 15})
            && s'.packets[16] == Packet(0, Other6(c))
  {
    var e := ReceiveEffect(Told(b, c), PROBE6);
    Promises6(b, c);
    PutDelivery(s, 15, 2, PROBE6, e);
  }

  // Delivering a message to replica 0, whatever the others are.
  lemma FirstReceives(s: Sys, r: Replica, x: Replica, y: Replica, sent: nat, spent: set<nat>,
                      k: nat, m: Message)
    requires Scene(s, r, x, y, sent, spent) && k < sent && k !in spent
    requires s.packets[k] == Packet(0, m)
    ensures var s' := Step(s, Deliver(k)); |s'.rs| == 3 && s'.rs[0] == Receive(r, m).r
  {
    PutDelivery(s, k, 0, m, Receive(r, m));
  }

  // Everyone accepts b in round 4, over client 7's value ...
  lemma ToAccepted(acts: seq<Action>, a: DecidedValue, b: DecidedValue, c: DecidedValue)
    requires PassedScript(acts, a, b, c) && Proposable(a) && Proposable(b)
    ensures var s := Run(3, acts[..7]);
            && Scene(s, Overwritten(a, b), Proposing(b), Accepting(b), 11, {3, 4, 7, 8})
            && s.packets[9] == Packet(1, AckTo1(0)) && s.packets[10] == Packet(1, AckTo1(2))
  {
    ToTakeover(acts, a);
    Onward(acts, 4);
    ProposeStep(Run(3, acts[..4]), b, Asked(a), PROMISED);
    Onward(acts, 5);
    OverwriteStep(Run(3, acts[..5]), a, b, Proposing(b), PROMISED);
    Onward(acts, 6);
    AcceptStep(Run(3, acts[..6]), b, Overwritten(a, b), Proposing(b));
  }

  // ... replica 1 decides and truncates it ...
  lemma ToCleared(acts: seq<Action>, a: DecidedValue, b: DecidedValue, c: DecidedValue)
    requires PassedScript(acts, a, b, c) && Proposable(a) && Proposable(b)
    ensures Scene(Run(3, acts[..9]), Overwritten(a, b), Cleared(b), Accepting(b), 11,
                  {3, 4, 7, 8, 9, 10})
  {
    ToAccepted(acts, a, b, c);
    Onward(acts, 7);
    DecideStep(Run(3, acts[..7]), b, Overwritten(a, b), Accepting(b));
    Onward(acts, 8);
    ClearStep(Run(3, acts[..8]), b, Overwritten(a, b), Accepting(b));
  }

  // ... and replica 2 learns so, and truncates it too.
  lemma ToTold(acts: seq<Action>, a: DecidedValue, b: DecidedValue, c: DecidedValue)
    requires PassedScript(acts, a, b, c) && Proposable(a) && Proposable(b) && Proposable(c)
    ensures Scene(Run(3, acts[..11]), Overwritten(a, b), Further(b, c), Told(b, c), 14,
                  {3, 4, 7, 8, 9, 10, 12})
  {
    ToCleared(acts, a, b, c);
    Onward(acts, 9);
    MoreStep(Run(3, acts[..9]), b, c, Overwritten(a, b), Accepting(b));
    Onward(acts, 10);
    LearnStep(Run(3, acts[..10]), b, c, Overwritten(a, b), Further(b, c));
  }

  lemma ToHoping(acts: seq<Action>, a: DecidedValue, b: DecidedValue, c: DecidedValue)
    requires PassedScript(acts, a, b, c) && Proposable(a) && Proposable(b) && Proposable(c)
    ensures var s := Run(3, acts[..13]);
            && Scene(s, Hoping(a, b), Further(b, c), Promising(b, c), 17,
                     {3, 4, 7, 8, 9, 10, 12, 15})
            && s.packets[16] == Packet(0, Other6(c))
  {
    ToTold(acts, a, b, c);
    Onward(acts, 11);
    HopeStep(Run(3, acts[..11]), a, b, Further(b, c), Told(b, c));
    Onward(acts, 12);
    PromiseStep6(Run(3, acts[..12]), b, c, Hoping(a, b), Further(b, c));
  }

  lemma ToLeading(acts: seq<Action>, a: DecidedValue, b: DecidedValue, c: DecidedValue)
    requires PassedScript(acts, a, b, c) && Proposable(a) && Proposable(b) && Proposable(c)
    ensures |Run(3, acts).rs| == 3 && Run(3, acts).rs[0] == Leading(a, b, c)
  {
    ToHoping(acts, a, b, c);
    Onward(acts, 13);
    FirstReceives(Run(3, acts[..13]), Hoping(a, b), Further(b, c), Promising(b, c), 17,
                  {3, 4, 7, 8, 9, 10, 12, 15}, 16, Other6(c));
    Leads(a, b, c);
    assert acts[..14] == acts;
  }

  // Replica 0 ends with slot 0 applied, client 7 still waiting on it, and no reply.
  lemma ClientPassedOver(a: DecidedValue, b: DecidedValue, c: DecidedValue)
    returns (acts: seq<Action>)
    requires Proposable(a) && Proposable(b) && Proposable(c)
    ensures PassedScript(acts, a, b, c) && |Run(3, acts).rs| == 3
    ensures Run(3, acts).rs[0] == Leading(a, b, c)
    ensures var r := Run(3, acts).rs[0];
            && r.applied == 1 && r.replies == []
            && r.pending == map[0 := Ticket(7, 0, a)]
  {
    acts := PassedScriptExists(a, b, c);
    ToLeading(acts, a, b, c);
  }

  // Whatever happens after that run, client 7 waits and is never answered.
  lemma PassedOverStays(a: DecidedValue, b: DecidedValue, c: DecidedValue, more: seq<Action>)
    returns (acts: seq<Action>)
    requires Proposable(a) && Proposable(b) && Proposable(c)
    ensures PassedScript(acts, a, b, c)
    ensures var r := Agreement.ReplicaAt(3, acts + more, 0);
            && Waiting.Waits(r, 0, Ticket(7, 0, a))
            && !Waiting.Answered(r.replies, 0, Ticket(7, 0, a))
  {
    acts := ClientPassedOver(a, b, c);
    Waiting.PassedOverForever(3, acts, more, 0, 0);
  }
}

/** The invariant of the whole system, over every run: n replicas, packets lost, delayed,
    reordered and delivered at most once. */
module Safety {
  import opened Common
  import opened TaskTypes
  import opened Quorums
  import opened ReplicaSpec
  import opened Cluster
  import opened History
  import opened Evolution
  import opened GlobalSteps
  import opened LeaderSteps
  import opened ElectionSteps
  import opened Handlers
  import opened Delivery
  import TM = TaskMachine

  predicate AllSettled(rs: seq<Replica>) {
    forall i | 0 <= i < |rs| :: Settled(rs[i])
  }

  ghost predicate SysOk(s: Sys, h: History) {
    && AllOk(s.n, s.rs, h, s.packets)
    && QuestionsOk(s.n, s.rs, s.packets, s.spent)
    && AllSettled(s.rs)
  }

  // Decided and applied slots only move forward.
  predicate CursorsAdvance(rs: seq<Replica>, rs': seq<Replica>) {
    && |rs| == |rs'|
    && forall i | 0 <= i < |rs| ::
         rs[i].decided <= rs'[i].decided && rs[i].applied <= rs'[i].applied
  }

  // ---- the start ----

  const FIRST: Round := Round([], 0, 0, {})

  function StartHistory(n: nat): History {
    History(map[0 := FIRST], seq(n, _ => map[0 := 0]), 0, 0, [], 0, {})
  }

  lemma StartReplica(n: nat, i: nat)
    requires i < n
    ensures RepOk(n, i, Start(i, n), StartHistory(n))
  {
    var h := StartHistory(n);
    assert Ackers(n, h.acc, 0, 0) == Below(n);
    assert Chosen(n, h, 0, 0);
    assert h.rounds[0].log[..0] == [];
  }

  lemma StartCore(n: nat)
    requires n > 0
    ensures CoreOk(n, Init(n).rs, StartHistory(n))
  {
    var h := StartHistory(n);
    assert Ackers(n, h.acc, 0, 0) == Below(n);
    forall i | 0 <= i < n ensures RepOk(n, i, Init(n).rs[i], h) {
      StartReplica(n, i);
    }
    assert RoundOk(n, h, 0);
  }

  lemma StartSettled(n: nat)
    requires n > 0
    ensures AllSettled(Init(n).rs)
  {
    forall i | 0 <= i < n ensures Settled(Init(n).rs[i]) {
      CommitPointBound(Init(n).rs[i].followerAck, 0);
    }
  }

  lemma StartOk(n: nat)
    requires n > 0
    ensures SysOk(Init(n), StartHistory(n))
  {
    StartCore(n);
    StartSettled(n);
  }

  // ---- every step ----

  // How a step changes the rounds: it opens one, lengthens one, or leaves them alone.
  predicate RoundsStep(s: Sys, h: History, a: Action, h': History) {
    if Winner(s, a).Some? then Opens(h, h', Winner(s, a).value.round, Winner(s, a).value.responses)
    else if Accepted(s, a).Some? then
      Extends(h, h', Accepted(s, a).value.round, Accepted(s, a).value.value)
    else h'.rounds == h.rounds
  }

  // The values a step proposes.
  function Proposals(s: Sys, a: Action): set<DecidedValue> {
    if Accepted(s, a).Some? then {Accepted(s, a).value.value} else {}
  }

  lemma DeliverOk(s: Sys, h: History, k: nat) returns (h': History)
    requires SysOk(s, h) && InFlight(s, k)
    ensures SysOk(Step(s, Deliver(k)), h')
    ensures h.committed <= h'.committed && h'.proposed == h.proposed
    ensures CursorsAdvance(s.rs, Step(s, Deliver(k)).rs)
    ensures RoundsStep(s, h, Deliver(k), h')
    ensures AccKept(h, h')
  {
    var p := s.packets[k];
    assert p in s.packets && PacketOk(s.n, s.rs, h, p);
    var i := p.dst;
    var m := p.msg;
    assert Waiting(s.packets, s.spent, k) && Unanswered(s.n, s.rs, p);
    DeliverAnswer(s, h, k);
    h' := ReceiveOk(s.n, i, s.rs, h, s.packets, m);
    assert RepOk(s.n, i, s.rs[i], h);
    DeliverQuestions(s, k);
  }

  // The PREPARE being delivered is not yet among the candidate's responses.
  lemma DeliverAnswer(s: Sys, h: History, k: nat)
    requires SysOk(s, h) && InFlight(s, k) && s.packets[k].dst < s.n
    requires PacketOk(s.n, s.rs, h, s.packets[k]) && Unanswered(s.n, s.rs, s.packets[k])
    ensures var m := s.packets[k].msg; var r := s.rs[s.packets[k].dst];
            m.kind == Prepare && m.round == r.electionRound ==>
              forall x | x in r.responses :: x.sender != m.sender
  {
  }

  lemma DeliverQuestions(s: Sys, k: nat)
    requires s.n > 0 && |s.rs| == s.n && InFlight(s, k) && s.packets[k].dst < s.n
    requires QuestionsOk(s.n, s.rs, s.packets, s.spent) && AllSettled(s.rs)
    requires s.rs[s.packets[k].dst].index == s.packets[k].dst
    ensures var s' := Step(s, Deliver(k));
            && QuestionsOk(s'.n, s'.rs, s'.packets, s'.spent)
            && AllSettled(s'.rs)
            && CursorsAdvance(s.rs, s'.rs)
  {
    var i := s.packets[k].dst;
    var m := s.packets[k].msg;
    var r := s.rs[i];
    ReceiveShape(r, m);
    Delivered(s, k, Receive(r, m));
  }

  // What matters of a delivery is the shape of its effect.
  lemma Delivered(s: Sys, k: nat, e: Effect)
    requires s.n > 0 && |s.rs| == s.n && InFlight(s, k) && s.packets[k].dst < s.n
    requires QuestionsOk(s.n, s.rs, s.packets, s.spent) && AllSettled(s.rs)
    requires s.rs[s.packets[k].dst].index == s.packets[k].dst
    requires Shaped(s.rs[s.packets[k].dst], s.packets[k].msg, e)
    ensures var rs' := s.rs[s.packets[k].dst := e.r];
            && QuestionsOk(s.n, rs', s.packets + e.out, s.spent + {k})
            && AllSettled(rs')
            && CursorsAdvance(s.rs, rs')
  {
    var i := s.packets[k].dst;
    var m := s.packets[k].msg;
    var r := s.rs[i];
    var rs' := s.rs[i := e.r];
    if m.kind == Probe && m.round >= r.probeRound {
      AnswerStep(s.n, s.rs, rs', s.packets, k, e.out[0], s.spent);
    } else if e.r.responses == r.responses {
      QuietStep(s.n, s.rs, rs', s.packets, e.out, s.spent, s.spent + {k});
    } else {
      CollectStep(s.n, i, s.rs, rs', s.packets, k, e.out, s.spent);
    }
  }

  lemma LoseOk(s: Sys, h: History, k: nat)
    requires SysOk(s, h)
    ensures SysOk(Step(s, Lose(k)), h)
  {
    QuietStep(s.n, s.rs, s.rs, s.packets, [], s.spent, s.spent + {k});
    assert s.packets + [] == s.packets;
  }

  lemma TickOk(s: Sys, h: History, i: nat, silent: bool) returns (h': History)
    requires SysOk(s, h) && i < s.n
    ensures SysOk(Step(s, Tick(i, silent)), h')
    ensures h.committed <= h'.committed && h'.proposed == h.proposed
    ensures CursorsAdvance(s.rs, Step(s, Tick(i, silent)).rs)
    ensures h'.rounds == h.rounds
    ensures AccKept(h, h')
  {
    assert RepOk(s.n, i, s.rs[i], h);
    h' := TimeoutOk(s.n, i, s.rs, h, s.packets, silent);
    TickQuestions(s, h, i, silent);
  }

  lemma TickQuestions(s: Sys, h: History, i: nat, silent: bool)
    requires s.n > 0 && |s.rs| == s.n && i < s.n && s.rs[i].n == s.n && s.rs[i].index == i
    requires PacketsOk(s.n, s.rs, h, s.packets)
    requires QuestionsOk(s.n, s.rs, s.packets, s.spent) && AllSettled(s.rs)
    requires s.n == 1 ==> s.rs[i].leader == i
    ensures var s' := Step(s, Tick(i, silent));
            && QuestionsOk(s'.n, s'.rs, s'.packets, s'.spent)
            && AllSettled(s'.rs)
            && CursorsAdvance(s.rs, s'.rs)
  {
    var e := Timeout(s.rs[i], silent);
    if s.rs[i].leader == i || !silent {
      TickQuiet(s.rs[i], silent);
      QuietStep(s.n, s.rs, s.rs[i := e.r], s.packets, e.out, s.spent, s.spent);
    } else {
      NextRoundOwner(s.rs[i]);
      ElectionStep(s.n, i, s.rs, s.rs[i := Candidate(s.rs[i])], h, s.packets, s.spent);
    }
  }

  lemma TickQuiet(r: Replica, silent: bool)
    requires r.n > 0 && Settled(r) && (r.leader == r.index || !silent)
    ensures var e := Timeout(r, silent);
            && Settled(e.r) && Quiet(e.out)
            && e.r.electionRound == r.electionRound && e.r.responses == r.responses
            && e.r.decided >= r.decided && e.r.applied >= r.applied
  {
    if r.leader == r.index {
      RetransmitShape(r);
    }
  }

  lemma KnowsItself(s: Sys, h: History, i: nat)
    requires CoreOk(s.n, s.rs, h) && i < s.n
    ensures s.rs[i].index == i
  {
    assert RepOk(s.n, i, s.rs[i], h);
  }

  lemma ClientStepOk(s: Sys, h: History, i: nat, id: nat, req: Request, now: int)
    returns (h': History)
    requires SysOk(s, h) && i < s.n
    ensures SysOk(Step(s, Client(i, id, req, now)), h')
    ensures h.committed <= h'.committed
    ensures h'.proposed <= h.proposed + Proposals(s, Client(i, id, req, now))
    ensures RoundsStep(s, h, Client(i, id, req, now), h')
    ensures CursorsAdvance(s.rs, Step(s, Client(i, id, req, now)).rs)
    ensures AccKept(h, h')
  {
    KnowsItself(s, h, i);
    h' := ClientOk(s.n, i, s.rs, h, s.packets, id, req, now);
    var e := ClientPropose(s.rs[i], id, req, now);
    ClientShape(s.rs[i], id, req, now);
    QuietStep(s.n, s.rs, s.rs[i := e.r], s.packets, e.out, s.spent, s.spent);
  }

  lemma StepOk(s: Sys, h: History, a: Action) returns (h': History)
    requires SysOk(s, h)
    ensures SysOk(Step(s, a), h')
    ensures h.committed <= h'.committed && h'.proposed <= h.proposed + Proposals(s, a)
    ensures CursorsAdvance(s.rs, Step(s, a).rs)
    ensures RoundsStep(s, h, a, h')
    ensures AccKept(h, h')
  {
    h' := h;
    match a
    case Deliver(k) =>
      if InFlight(s, k) {
        h' := DeliverOk(s, h, k);
      }
    case Lose(k) => LoseOk(s, h, k);
    case Tick(i, silent) =>
      if i < s.n {
        h' := TickOk(s, h, i, silent);
      }
    case Client(i, id, req, now) =>
      if i < s.n {
        h' := ClientStepOk(s, h, i, id, req, now);
      }
  }

  // ---- every run ----

  // Everything ever proposed: what clients asked of replicas that took themselves for the leader.
  function AllProposals(n: nat, acts: seq<Action>): set<DecidedValue> {
    if |acts| == 0 then {}
    else AllProposals(n, Front(acts)) + Proposals(Run(n, Front(acts)), Last(acts))
  }

  lemma {:induction false} RunOk(n: nat, acts: seq<Action>) returns (h: History)
    requires n > 0
    ensures SysOk(Run(n, acts), h) && h.proposed <= AllProposals(n, acts)
    decreases |acts|
  {
    if |acts| == 0 {
      StartOk(n);
      h := StartHistory(n);
    } else {
      var h0 := RunOk(n, Front(acts));
      h := StepOk(Run(n, Front(acts)), h0, Last(acts));
    }
  }
}

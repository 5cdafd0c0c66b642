/** Leader completeness, over runs: what a majority held at one moment is in the log that any leader
    of a later round starts from, at whatever later moment it wins. */
module Completeness {
  import opened Common
  import opened TaskTypes
  import opened Quorums
  import opened ReplicaSpec
  import opened Cluster
  import opened History
  import opened LeaderSteps
  import opened ElectionSteps
  import opened Safety
  import Agreement

  // The replicas whose log of round q reaches slot s after the run.
  function Holders(n: nat, acts: seq<Action>, q: nat, s: nat): set<nat> {
    set j | 0 <= j < n && Holds(n, acts, q, s, j)
  }

  predicate Holds(n: nat, acts: seq<Action>, q: nat, s: nat, j: nat)
    requires j < n
  {
    Agreement.ReplicaAt(n, acts, j).ackRound == q && s <= End(Agreement.ReplicaAt(n, acts, j))
  }

  // A log and a reported log have the same value at a slot both carry.
  predicate SameAt(r: Replica, m: Message, x: nat) {
    r.logBase <= x < End(r) && m.slot <= x < m.slot + |m.values| ==>
      r.log[x - r.logBase] == m.values[x - m.slot]
  }

  // ---- the history only grows ----

  ghost predicate RoundsKept(h: History, h': History) {
    forall q | q in h.rounds :: q in h'.rounds && h.rounds[q].log <= h'.rounds[q].log
  }

  lemma StepKeepsRounds(s: Sys, h: History, a: Action, h': History)
    requires RoundsStep(s, h, a, h')
    ensures RoundsKept(h, h')
  {
  }

  lemma KeptTwice(h: History, h1: History, h2: History)
    requires RoundsKept(h, h1) && RoundsKept(h1, h2) && AccKept(h, h1) && AccKept(h1, h2)
    ensures RoundsKept(h, h2) && AccKept(h, h2)
  {
    forall j, q ensures Acc(h.acc, j, q) <= Acc(h2.acc, j, q) {
      assert Acc(h.acc, j, q) <= Acc(h1.acc, j, q);
    }
  }

  lemma StepKeeps(s: Sys, h: History, a: Action) returns (h': History)
    requires SysOk(s, h)
    ensures SysOk(Step(s, a), h') && RoundsStep(s, h, a, h') && RoundsKept(h, h') && AccKept(h, h')
  {
    h' := StepOk(s, h, a);
    StepKeepsRounds(s, h, a, h');
  }

  lemma {:induction false} RunKeeps(n: nat, acts: seq<Action>, more: seq<Action>)
    returns (h: History, h': History)
    requires n > 0
    ensures SysOk(Run(n, acts), h) && SysOk(Run(n, acts + more), h')
    ensures RoundsKept(h, h') && AccKept(h, h')
    decreases |more|
  {
    if |more| == 0 {
      h := RunOk(n, acts);
      h' := h;
      assert acts + more == acts;
    } else {
      var h1;
      h, h1 := RunKeeps(n, acts, Front(more));
      var fs := acts + Front(more);
      h' := StepKeeps(Run(n, fs), h1, Last(more));
      KeptTwice(h, h1, h');
      assert Front(acts + more) == fs && Last(acts + more) == Last(more);
    }
  }

  // ---- what the majority holds is chosen ----

  lemma HolderIs(n: nat, acts: seq<Action>, q: nat, s: nat, j: nat, h: History)
    requires j < n && Holds(n, acts, q, s, j) && SysOk(Run(n, acts), h)
    ensures LogOk(n, j, Agreement.ReplicaAt(n, acts, j), h)
    ensures q in h.rounds && s <= Acc(h.acc, j, q)
  {
    Agreement.RunSize(n, acts);
    assert RepOk(n, j, Agreement.ReplicaAt(n, acts, j), h);
  }

  lemma HeldIsChosen(n: nat, acts: seq<Action>, q: nat, s: nat, h: History, h': History)
    requires n > 0 && SysOk(Run(n, acts), h) && AccKept(h, h') && RoundsKept(h, h')
    requires 2 * |Holders(n, acts, q, s)| > n
    ensures Chosen(n, h', q, s)
  {
    forall j | j in Holders(n, acts, q, s) ensures j in Ackers(n, h'.acc, q, s) && q in h.rounds {
      HolderIs(n, acts, q, s, j, h);
      assert Acc(h.acc, j, q) <= Acc(h'.acc, j, q);
    }
    SubsetCard(Holders(n, acts, q, s), Ackers(n, h'.acc, q, s));
    QuorumIs(n, |Ackers(n, h'.acc, q, s)|);
    var j :| j in Holders(n, acts, q, s);
  }

  // ---- what the winner starts from ----

  lemma BestReported(s: Sys, h: History, a: Action)
    requires SysOk(s, h) && Winner(s, a).Some?
    ensures PrepareOk(s.n, s.rs, h, BestOf(Winner(s, a).value.responses))
  {
    var p := s.packets[a.k];
    assert PacketOk(s.n, s.rs, h, p);
    assert ResponsesOk(s.n, s.rs, h, p.dst);
    var r := StepDown(s.rs[p.dst], p.msg);
    assert r.responses == s.rs[p.dst].responses;
  }

  lemma HolderAgrees(n: nat, j: nat, r: Replica, h: History, h': History, best: Message, s: nat, x: nat)
    requires LogOk(n, j, r, h) && RoundsKept(h, h') && x < s && Carries(h', best, r.ackRound, s)
    ensures SameAt(r, best, x)
  {
    var t, t' := h'.rounds[r.ackRound].log, h'.rounds[best.ackRound].log;
    assert t[x] == t[..s][x] == t'[..s][x] == t'[x];
  }

  // If at some moment a majority's logs of round q reach slot s, then whoever later wins a round
  // beyond q starts from a log that reaches s too, with the same values.
  lemma WinnerHasHeld(n: nat, acts: seq<Action>, more: seq<Action>, a: Action, q: nat, s: nat)
    requires n > 0 && 2 * |Holders(n, acts, q, s)| > n
    requires Winner(Run(n, acts + more), a).Some?
    requires q < Winner(Run(n, acts + more), a).value.round
    ensures var best := BestOf(Winner(Run(n, acts + more), a).value.responses);
            && s <= best.ackSlot == best.slot + |best.values|
            && forall j, x | j in Holders(n, acts, q, s) && 0 <= x < s ::
                 SameAt(Agreement.ReplicaAt(n, acts, j), best, x)
  {
    var h, h1 := WinnerLog(n, acts, more, a, q, s);
    var best := BestOf(Winner(Run(n, acts + more), a).value.responses);
    forall j, x | j in Holders(n, acts, q, s) && 0 <= x < s
      ensures SameAt(Agreement.ReplicaAt(n, acts, j), best, x) {
      HolderIs(n, acts, q, s, j, h);
      HolderAgrees(n, j, Agreement.ReplicaAt(n, acts, j), h, h1, best, s, x);
    }
  }

  // The best response is a part of its round's log, which is alike up to s with that of round q.
  ghost predicate Carries(h: History, best: Message, q: nat, s: nat) {
    && best.ackRound in h.rounds && q in h.rounds
    && s <= best.ackSlot <= |h.rounds[best.ackRound].log| && s <= |h.rounds[q].log|
    && best.ackSlot == best.slot + |best.values|
    && best.values == h.rounds[best.ackRound].log[best.slot..best.ackSlot]
    && h.rounds[best.ackRound].log[..s] == h.rounds[q].log[..s]
  }

  lemma WinnerLog(n: nat, acts: seq<Action>, more: seq<Action>, a: Action, q: nat, s: nat)
    returns (h: History, h1: History)
    requires n > 0 && 2 * |Holders(n, acts, q, s)| > n
    requires Winner(Run(n, acts + more), a).Some?
    requires q < Winner(Run(n, acts + more), a).value.round
    ensures SysOk(Run(n, acts), h) && RoundsKept(h, h1)
    ensures Carries(h1, BestOf(Winner(Run(n, acts + more), a).value.responses), q, s)
  {
    h, h1 := RunKeeps(n, acts, more);
    Agreement.RunSize(n, acts + more);
    HeldIsChosen(n, acts, q, s, h, h1);
    WinnerCarries(Run(n, acts + more), h1, a, q, s);
  }

  lemma WinnerCarries(t: Sys, h: History, a: Action, q: nat, s: nat)
    requires t.n > 0 && SysOk(t, h) && Chosen(t.n, h, q, s)
    requires Winner(t, a).Some? && q < Winner(t, a).value.round
    ensures Carries(h, BestOf(Winner(t, a).value.responses), q, s)
  {
    var w := Winner(t, a).value;
    BestReported(t, h, a);
    var h' := StepKeeps(t, h, a);
    StillChosen(t.n, h, h', q, s);
    OpenedHas(t.n, h, h', w.round, w.responses, q, s, Step(t, a));
  }

  lemma StillChosen(n: nat, h: History, h': History, q: nat, s: nat)
    requires Chosen(n, h, q, s) && AccKept(h, h') && RoundsKept(h, h')
    ensures Chosen(n, h', q, s)
  {
    forall j | j in Ackers(n, h.acc, q, s) ensures j in Ackers(n, h'.acc, q, s) {
      assert Acc(h.acc, j, q) <= Acc(h'.acc, j, q);
    }
    SubsetCard(Ackers(n, h.acc, q, s), Ackers(n, h'.acc, q, s));
  }

  lemma OpenedHas(n: nat, h: History, h': History, e: nat, ms: seq<Message>, q: nat, s: nat, t: Sys)
    requires n > 0 && SysOk(t, h') && t.n == n && Opens(h, h', e, ms)
    requires q < e && Chosen(n, h', q, s)
    ensures var best := BestOf(ms);
            && s <= best.ackSlot && q in h.rounds && s <= |h.rounds[q].log|
            && h.rounds[best.ackRound].log[..s] == h.rounds[q].log[..s]
  {
    var best := BestOf(ms);
    LeaderCompleteness(n, h', q, e, s);
    var log := h.rounds[best.ackRound].log;
    assert h'.rounds[e].log == log[..best.ackSlot];
    assert log[..s] == log[..best.ackSlot][..s];
  }
}

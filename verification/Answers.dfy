/** What a client is told, and exactly when it is told the outcome of its own request. */
module Answers {
  import opened Common
  import opened TaskTypes
  import opened ReplicaSpec
  import opened Cluster
  import opened History
  import opened LeaderSteps
  import opened ElectionSteps
  import opened Safety
  import Agreement
  import Journal
  import Promptness

  // ---- the elections of a run ----

  // A leader started from a log of round src that ended at slot end.
  datatype Ballot = Ballot(src: nat, end: nat)

  // The election that opened each round. Round 0 had none.
  function Elections(n: nat, acts: seq<Action>): map<nat, Ballot> {
    if |acts| == 0 then map[]
    else Elected(Elections(n, Front(acts)), Winner(Run(n, Front(acts)), Last(acts)))
  }

  function Elected(els: map<nat, Ballot>, w: Option<Win>): map<nat, Ballot>
    requires w.Some? ==> |w.value.responses| > 0
  {
    if w.None? then els
    else
      var best := BestOf(w.value.responses);
      els[w.value.round := Ballot(best.ackRound, best.ackSlot)]
  }

  // Slot k of round q came down from round q0: every leader in between adopted a log that already
  // reached beyond k, the first of them from round q0 itself.
  predicate Carried(els: map<nat, Ballot>, q: nat, k: nat, q0: nat) {
    q == q0
    || (q in els && els[q].src < q && k < els[q].end && Carried(els, els[q].src, k, q0))
  }

  // No two proposals of the run are the same value.
  predicate NoValueTwice(n: nat, acts: seq<Action>) {
    |acts| == 0
    || (NoValueTwice(n, Front(acts))
        && Proposals(Run(n, Front(acts)), Last(acts)) !! AllProposals(n, Front(acts)))
  }

  // ---- the elections are those the history remembers ----

  ghost predicate Known(els: map<nat, Ballot>, h: History) {
    && (forall q :: q in els <==> q in h.rounds && q > 0)
    && (forall q | q in els :: els[q] == Ballot(h.rounds[q].src, h.rounds[q].adopt))
  }

  lemma ElectedKnown(s: Sys, h: History, a: Action, h': History, els: map<nat, Ballot>)
    requires Known(els, h) && RoundsStep(s, h, a, h')
    ensures Known(Elected(els, Winner(s, a)), h')
  {
  }

  // A value appended by a leader of its own accord sits at one slot of one round only.
  ghost predicate TailsApart(h: History) {
    forall q: nat, k: nat, q': nat, k': nat {:trigger InTail(h, q, k), InTail(h, q', k')}
      | InTail(h, q, k) && InTail(h, q', k') && h.rounds[q].log[k] == h.rounds[q'].log[k'] ::
      q == q' && k == k'
  }

  lemma TailsStayApart(n: nat, s: Sys, h: History, a: Action, h': History)
    requires TailsApart(h) && RoundsOk(n, h) && RoundsStep(s, h, a, h')
    requires Proposals(s, a) !! h.proposed
    ensures TailsApart(h')
  {
    forall q: nat, k: nat, q': nat, k': nat
                        | InTail(h', q, k) && InTail(h', q', k')
                          && h'.rounds[q].log[k] == h'.rounds[q'].log[k']
      ensures q == q' && k == k' {
      TailBefore(n, s, h, a, h', q, k);
      TailBefore(n, s, h, a, h', q', k');
    }
  }

  // Every slot in a tail was there before the step, or is the one it appended.
  lemma TailBefore(n: nat, s: Sys, h: History, a: Action, h': History, q: nat, k: nat)
    requires RoundsOk(n, h) && RoundsStep(s, h, a, h') && InTail(h', q, k)
    ensures if InTail(h, q, k) then
              && h'.rounds[q].log[k] == h.rounds[q].log[k]
              && h.rounds[q].log[k] in h.proposed
            else
              && Winner(s, a).None? && Accepted(s, a).Some?
              && q == Accepted(s, a).value.round && q in h.rounds && k == |h.rounds[q].log|
              && h'.rounds[q].log[k] == Accepted(s, a).value.value
  {
    if InTail(h, q, k) {
      assert RoundOk(n, h, q);
    }
  }

  lemma StartKnown(n: nat)
    requires n > 0
    ensures SysOk(Init(n), StartHistory(n))
    ensures Known(map[], StartHistory(n)) && TailsApart(StartHistory(n))
  {
    StartOk(n);
  }

  lemma StepKnown(s: Sys, h: History, a: Action, els: map<nat, Ballot>) returns (h': History)
    requires SysOk(s, h) && Known(els, h)
    ensures SysOk(Step(s, a), h') && h'.proposed <= h.proposed + Proposals(s, a)
    ensures Known(Elected(els, Winner(s, a)), h')
    ensures TailsApart(h) && Proposals(s, a) !! h.proposed ==> TailsApart(h')
  {
    h' := StepOk(s, h, a);
    ElectedKnown(s, h, a, h', els);
    if TailsApart(h) && Proposals(s, a) !! h.proposed {
      TailsStayApart(s.n, s, h, a, h');
    }
  }

  lemma {:induction false} RunKnown(n: nat, acts: seq<Action>) returns (h: History)
    requires n > 0
    ensures SysOk(Run(n, acts), h) && h.proposed <= AllProposals(n, acts)
    ensures Known(Elections(n, acts), h)
    ensures NoValueTwice(n, acts) ==> TailsApart(h)
    decreases |acts|
  {
    if |acts| == 0 {
      StartKnown(n);
      h := StartHistory(n);
    } else {
      var h0 := RunKnown(n, Front(acts));
      h := StepKnown(Run(n, Front(acts)), h0, Last(acts), Elections(n, Front(acts)));
    }
  }

  // ---- where a value comes from ----

  // What was carried down is the same value.
  lemma {:induction false} CarriedIsSame(n: nat, h: History, els: map<nat, Ballot>,
                                         q: nat, k: nat, q0: nat)
    requires RoundsOk(n, h) && Known(els, h) && q in h.rounds && k < |h.rounds[q].log|
    requires Carried(els, q, k, q0)
    ensures q0 in h.rounds && k < |h.rounds[q0].log|
    ensures h.rounds[q].log[k] == h.rounds[q0].log[k]
    decreases q
  {
    if q == q0 {
    } else {
      assert RoundOk(n, h, q);
      FromSource(n, h, q, k);
      CarriedIsSame(n, h, els, h.rounds[q].src, k, q0);
    }
  }

  lemma FromSource(n: nat, h: History, q: nat, k: nat)
    requires q in h.rounds && RoundOk(n, h, q) && q > 0 && k < h.rounds[q].adopt
    ensures h.rounds[q].src in h.rounds && h.rounds[q].src < q
    ensures k < |h.rounds[h.rounds[q].src].log| && k < |h.rounds[q].log|
    ensures h.rounds[q].log[k] == h.rounds[h.rounds[q].src].log[k]
  {
    var e := h.rounds[q];
    assert e.log[k] == e.log[..e.adopt][k] == h.rounds[e.src].log[..e.adopt][k];
  }

  // Every slot of every round was carried down from the one round that appended it.
  lemma {:induction false} Origin(n: nat, h: History, els: map<nat, Ballot>, q: nat, k: nat)
    returns (q0: nat)
    requires RoundsOk(n, h) && Known(els, h) && q in h.rounds && k < |h.rounds[q].log|
    ensures Carried(els, q, k, q0) && InTail(h, q0, k)
    ensures h.rounds[q].log[k] == h.rounds[q0].log[k]
    decreases q
  {
    if h.rounds[q].adopt <= k {
      q0 := q;
    } else {
      assert RoundOk(n, h, q);
      FromSource(n, h, q, k);
      q0 := Origin(n, h, els, h.rounds[q].src, k);
    }
  }

  // ---- answers ----

  // The answer is the outcome of the value committed at its slot.
  ghost predicate TellsOutcome(p: Reply, c: seq<DecidedValue>) {
    p.slot < |c| && p.resp == Outcome(c, p.slot) && p.now == c[p.slot].now
  }

  // All that is said of an answer p, given the committed sequence c.
  ghost predicate AnswerOk(n: nat, acts: seq<Action>, p: Reply, c: seq<DecidedValue>) {
    var carried := Carried(Elections(n, acts), p.round, p.slot, p.ticket.round);
    && TellsOutcome(p, c)
    && (carried ==> c[p.slot] == p.ticket.value)
    && (NoValueTwice(n, acts) ==> (c[p.slot] == p.ticket.value <==> carried))
  }

  // Every answer any client of any replica ever got is the outcome of the value committed at its slot
  // of one and the same sequence, on the state left by all earlier slots. That value is its own if
  // the slot was carried down, from the round it was proposed in to the round it was applied from;
  // and, where no value is proposed twice, only if.
  lemma OwnRequestAnswered(n: nat, acts: seq<Action>) returns (c: seq<DecidedValue>)
    requires n > 0
    ensures Agreement.AllAt(Run(n, acts), c)
    ensures forall i, p | 0 <= i < n && p in Agreement.ReplicaAt(n, acts, i).replies ::
              AnswerOk(n, acts, p, c)
  {
    var h := RunKnown(n, acts);
    c := h.committed;
    AllReplicasAt(n, acts, h);
    forall i, p | 0 <= i < n && p in Agreement.ReplicaAt(n, acts, i).replies
      ensures AnswerOk(n, acts, p, c) {
      RepliesTell(n, acts, i, p, h);
      OwnIffCarried(n, h, Elections(n, acts), p);
    }
  }

  lemma AllReplicasAt(n: nat, acts: seq<Action>, h: History)
    requires n > 0 && SysOk(Run(n, acts), h)
    ensures Agreement.AllAt(Run(n, acts), h.committed)
  {
    Agreement.RunSize(n, acts);
    forall j | 0 <= j < n ensures Agreement.At(Run(n, acts).rs[j], h.committed) {
      assert RepOk(n, j, Run(n, acts).rs[j], h);
      Agreement.RepAt(n, j, Run(n, acts).rs[j], h, h.committed);
    }
  }

  lemma RepliesTell(n: nat, acts: seq<Action>, i: nat, p: Reply, h: History)
    requires i < n && p in Agreement.ReplicaAt(n, acts, i).replies && SysOk(Run(n, acts), h)
    ensures ReplyOk(p, h) && RoundsOk(n, h)
  {
    Agreement.RunSize(n, acts);
    assert RepOk(n, i, Run(n, acts).rs[i], h);
  }

  lemma OwnIffCarried(n: nat, h: History, els: map<nat, Ballot>, p: Reply)
    requires RoundsOk(n, h) && Known(els, h) && ReplyOk(p, h)
    ensures Carried(els, p.round, p.slot, p.ticket.round) ==> h.committed[p.slot] == p.ticket.value
    ensures TailsApart(h) && h.committed[p.slot] == p.ticket.value ==>
              Carried(els, p.round, p.slot, p.ticket.round)
  {
    if Carried(els, p.round, p.slot, p.ticket.round) {
      CarriedIsSame(n, h, els, p.round, p.slot, p.ticket.round);
    } else {
      var q0 := Origin(n, h, els, p.round, p.slot);
      assert InTail(h, q0, p.slot) && InTail(h, p.ticket.round, p.slot);
    }
  }

  // ---- real time ----

  lemma {:induction false} RanGrows(n: nat, acts: seq<Action>, more: seq<Action>, i: nat)
    requires i < n
    ensures Agreement.ReplicaAt(n, acts, i).ran <= Agreement.ReplicaAt(n, acts + more, i).ran
    decreases |more|
  {
    if |more| == 0 {
      assert acts + more == acts;
    } else {
      var fs := acts + Front(more);
      RanGrows(n, acts, Front(more), i);
      Journal.Shaped(n, fs, i);
      Agreement.RunSize(n, fs + [Last(more)]);
      assert Front(fs + [Last(more)]) == fs;
      Journal.StepGoes(Run(n, fs), Last(more), i);
      assert fs + [Last(more)] == acts + more;
    }
  }

  lemma {:induction false} FreshWhenProposed(n: nat, acts: seq<Action>, k: nat)
    requires k < |acts| && NoValueTwice(n, acts)
    ensures Proposals(Run(n, acts[..k]), acts[k]) !! AllProposals(n, acts[..k])
    decreases |acts|
  {
    if k == |acts| - 1 {
      assert acts[..k] == Front(acts);
    } else {
      FreshWhenProposed(n, Front(acts), k);
      assert Front(acts)[..k] == acts[..k];
    }
  }

  // What a replica has decided by then, clients proposed by then; and it stays where it is.
  lemma DecidedBefore(n: nat, acts: seq<Action>, more: seq<Action>, j: nat, k: nat,
                      c: seq<DecidedValue>)
    requires j < n && k < Agreement.ReplicaAt(n, acts, j).decided
    requires Agreement.AllAt(Run(n, acts + more), c)
    ensures k < |c| && c[k] in AllProposals(n, acts)
  {
    var r := Agreement.ReplicaAt(n, acts, j);
    var cs := Agreement.OneCommittedSequence(n, acts);
    assert acts[..|acts|] == acts;
    Agreement.RunSize(n, acts);
    assert Agreement.At(r, Last(cs));
    Promptness.NothingLeftUnapplied(n, acts, j);
    RanGrows(n, acts, more, j);
    Agreement.RunSize(n, acts + more);
    assert Agreement.At(Agreement.ReplicaAt(n, acts + more, j), c);
    assert c[k] == r.ran[k] == Last(cs)[k];
  }

  // Answers respect real time: where no value is proposed twice, a client told the outcome of its own
  // request, accepted at the k-th action, has a slot beyond everything any replica had decided then.
  lemma AnsweredInOrder(n: nat, acts: seq<Action>, k: nat, i: nat, p: Reply, j: nat)
    requires i < n && j < n && k < |acts| && NoValueTwice(n, acts)
    requires Accepted(Run(n, acts[..k]), acts[k]).Some?
    requires p in Agreement.ReplicaAt(n, acts, i).replies
    requires p.ticket.value == Accepted(Run(n, acts[..k]), acts[k]).value.value
    requires Carried(Elections(n, acts), p.round, p.slot, p.ticket.round)
    ensures Agreement.ReplicaAt(n, acts[..k], j).decided <= p.slot
  {
    var c := OwnAnswer(n, acts, i, p);
    FreshWhenProposed(n, acts, k);
    assert acts == acts[..k] + acts[k..];
    NotDecidedBefore(n, acts[..k], acts[k..], acts, j, p.slot, c);
  }

  lemma OwnAnswer(n: nat, acts: seq<Action>, i: nat, p: Reply) returns (c: seq<DecidedValue>)
    requires i < n && p in Agreement.ReplicaAt(n, acts, i).replies
    requires Carried(Elections(n, acts), p.round, p.slot, p.ticket.round)
    ensures Agreement.AllAt(Run(n, acts), c) && p.slot < |c| && c[p.slot] == p.ticket.value
  {
    c := OwnRequestAnswered(n, acts);
    assert AnswerOk(n, acts, p, c);
  }

  lemma NotDecidedBefore(n: nat, acts: seq<Action>, more: seq<Action>, all: seq<Action>, j: nat,
                         k: nat, c: seq<DecidedValue>)
    requires j < n && all == acts + more && Agreement.AllAt(Run(n, all), c)
    requires k < |c| && c[k] !in AllProposals(n, acts)
    ensures Agreement.ReplicaAt(n, acts, j).decided <= k
  {
    if k < Agreement.ReplicaAt(n, acts, j).decided {
      DecidedBefore(n, acts, more, j, k, c);
    }
  }
}

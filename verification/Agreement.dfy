/** The main results, over every run of the cluster from its start. */
module Agreement {
  import opened Common
  import opened TaskTypes
  import opened Quorums
  import opened ReplicaSpec
  import opened Cluster
  import opened History
  import opened LocalSteps
  import opened FollowerSteps
  import opened Handlers
  import opened Safety
  import TM = TaskMachine
  import TaskInvariants
  import TaskRuns

  lemma {:induction false} RunSize(n: nat, acts: seq<Action>)
    ensures Run(n, acts).n == n && |Run(n, acts).rs| == n
  {
    if |acts| == 0 {
    } else {
      RunSize(n, Front(acts));
    }
  }

  // Replica i after a run.
  function ReplicaAt(n: nat, acts: seq<Action>, i: nat): Replica
    requires i < n
  {
    RunSize(n, acts);
    Run(n, acts).rs[i]
  }

  lemma ReplicaOk(n: nat, acts: seq<Action>, i: nat) returns (h: History)
    requires i < n
    ensures SysOk(Run(n, acts), h) && Run(n, acts).n == n && |Run(n, acts).rs| == n
    ensures RepOk(n, i, ReplicaAt(n, acts, i), h)
  {
    h := RunOk(n, acts);
    RunSize(n, acts);
    assert RepOk(n, i, ReplicaAt(n, acts, i), h);
  }

  lemma RepAlone(n: nat, acts: seq<Action>, i: nat) returns (h: History)
    requires i < n
    ensures RepOk(n, i, ReplicaAt(n, acts, i), h)
  {
    h := ReplicaOk(n, acts, i);
  }

  // Where two replicas both still keep a slot, it holds the same value.
  predicate SlotAgrees(a: Replica, b: Replica, s: nat) {
    a.logBase <= s < End(a) && b.logBase <= s < End(b) ==>
      a.log[s - a.logBase] == b.log[s - b.logBase]
  }

  // ---- one committed sequence ----

  // The replica is at some point of the sequence c: what it has ever applied is the first applied
  // decisions, each once and in order, its database is their result, and what it still keeps of
  // the decided log is that part of c.
  ghost predicate At(r: Replica, c: seq<DecidedValue>) {
    && r.logBase <= r.applied <= r.decided <= End(r)
    && r.decided <= |c|
    && r.ran == c[..r.applied]
    && r.db == TM.Replay(r.ran)
    && r.log[..r.decided - r.logBase] == c[r.logBase..r.decided]
  }

  ghost predicate AllAt(s: Sys, c: seq<DecidedValue>) {
    forall i | 0 <= i < |s.rs| :: At(s.rs[i], c)
  }

  function MaxDecided(rs: seq<Replica>): nat {
    if |rs| == 0 then 0 else Max(MaxDecided(Front(rs)), Last(rs).decided)
  }

  lemma {:induction false} MaxDecidedIs(rs: seq<Replica>)
    ensures forall i | 0 <= i < |rs| :: rs[i].decided <= MaxDecided(rs)
    ensures |rs| > 0 ==> exists i | 0 <= i < |rs| :: rs[i].decided == MaxDecided(rs)
  {
    if |rs| == 0 {
    } else {
      MaxDecidedIs(Front(rs));
      if Last(rs).decided < MaxDecided(rs) {
        var i :| 0 <= i < |Front(rs)| && Front(rs)[i].decided == MaxDecided(Front(rs));
        assert rs[i].decided == MaxDecided(rs);
      }
    }
  }

  lemma {:induction false} MaxDecidedAdvances(rs: seq<Replica>, rs': seq<Replica>)
    requires CursorsAdvance(rs, rs')
    ensures MaxDecided(rs) <= MaxDecided(rs')
  {
    if |rs| == 0 {
    } else {
      assert CursorsAdvance(Front(rs), Front(rs')) by {
        forall i | 0 <= i < |rs| - 1
          ensures rs[i].decided <= rs'[i].decided && rs[i].applied <= rs'[i].applied {
        }
      }
      MaxDecidedAdvances(Front(rs), Front(rs'));
    }
  }

  // The committed sequence of a state: as long as the furthest replica has decided.
  function Committed(s: Sys, h: History): seq<DecidedValue> {
    h.committed[..Min(MaxDecided(s.rs), |h.committed|)]
  }

  lemma CommittedLength(s: Sys, h: History)
    requires SysOk(s, h)
    ensures |Committed(s, h)| == MaxDecided(s.rs) <= |h.committed|
  {
    MaxDecidedIs(s.rs);
    var i :| 0 <= i < |s.rs| && s.rs[i].decided == MaxDecided(s.rs);
    assert RepOk(s.n, i, s.rs[i], h);
  }

  lemma RepAt(n: nat, i: nat, r: Replica, h: History, c: seq<DecidedValue>)
    requires RoundsOk(n, h) && CommittedOk(n, h) && RepOk(n, i, r, h)
    requires c <= h.committed && r.decided <= |c|
    ensures At(r, c)
  {
    DecidedIsCommitted(n, i, r, h);
    var log := h.rounds[r.ackRound].log;
    assert c[..r.decided] == h.committed[..r.decided] == log[..r.decided];
    assert c[..r.applied] == c[..r.decided][..r.applied];
    assert log[..r.applied] == log[..r.decided][..r.applied];
    assert r.log[..r.decided - r.logBase] == log[r.logBase..r.decided];
    assert log[r.logBase..r.decided] == log[..r.decided][r.logBase..];
    assert c[r.logBase..r.decided] == c[..r.decided][r.logBase..];
  }

  lemma StateAt(s: Sys, h: History)
    requires SysOk(s, h)
    ensures AllAt(s, Committed(s, h))
    ensures forall v | v in Committed(s, h) :: v in h.proposed
  {
    CommittedLength(s, h);
    MaxDecidedIs(s.rs);
    forall i | 0 <= i < |s.rs| ensures At(s.rs[i], Committed(s, h)) {
      assert RepOk(s.n, i, s.rs[i], h);
      RepAt(s.n, i, s.rs[i], h, Committed(s, h));
    }
    assert RoundOk(s.n, h, h.chosenRound);
    forall v | v in Committed(s, h) ensures v in h.proposed {
      assert v in h.rounds[h.chosenRound].log;
    }
  }

  // c is what the run has committed after each action: a sequence that only grows.
  ghost predicate Growing(cs: seq<seq<DecidedValue>>) {
    forall j, k | 0 <= j <= k < |cs| :: cs[j] <= cs[k]
  }

  lemma GrowingExtends(cs: seq<seq<DecidedValue>>, c: seq<DecidedValue>)
    requires |cs| > 0 && Growing(cs) && Last(cs) <= c
    ensures Growing(cs + [c])
  {
    forall j, k | 0 <= j <= k < |cs + [c]| ensures (cs + [c])[j] <= (cs + [c])[k] {
      assert cs[Min(j, |cs| - 1)] <= Last(cs);
    }
  }

  lemma {:induction false} RunSequences(n: nat, acts: seq<Action>)
    returns (h: History, cs: seq<seq<DecidedValue>>)
    requires n > 0
    ensures SysOk(Run(n, acts), h) && h.proposed <= AllProposals(n, acts)
    ensures |cs| == |acts| + 1 && Growing(cs) && Last(cs) == Committed(Run(n, acts), h)
    ensures forall k | 0 <= k <= |acts| ::
              AllAt(Run(n, acts[..k]), cs[k]) && |cs[k]| == MaxDecided(Run(n, acts[..k]).rs)
    decreases |acts|
  {
    if |acts| == 0 {
      StartOk(n);
      h := StartHistory(n);
      cs := [Committed(Init(n), h)];
      StateAt(Init(n), h);
      CommittedLength(Init(n), h);
      assert acts[..0] == acts;
    } else {
      var fs := Front(acts);
      var h0, cs0 := RunSequences(n, fs);
      var s0 := Run(n, fs);
      var s := Run(n, acts);
      h := StepOk(s0, h0, Last(acts));
      var c := Committed(s, h);
      StateAt(s, h);
      CommittedLength(s, h);
      CommittedLength(s0, h0);
      MaxDecidedAdvances(s0.rs, s.rs);
      assert Last(cs0) <= c;
      GrowingExtends(cs0, c);
      cs := cs0 + [c];
      PrefixStates(n, acts, cs0, cs);
    }
  }

  lemma PrefixStates(n: nat, acts: seq<Action>, cs0: seq<seq<DecidedValue>>,
                     cs: seq<seq<DecidedValue>>)
    requires |acts| > 0 && |cs0| == |acts| && |cs| == |acts| + 1 && cs0 == Front(cs)
    requires AllAt(Run(n, acts), Last(cs)) && |Last(cs)| == MaxDecided(Run(n, acts).rs)
    requires forall k | 0 <= k <= |acts| - 1 ::
               AllAt(Run(n, Front(acts)[..k]), cs0[k])
               && |cs0[k]| == MaxDecided(Run(n, Front(acts)[..k]).rs)
    ensures forall k | 0 <= k <= |acts| ::
              AllAt(Run(n, acts[..k]), cs[k]) && |cs[k]| == MaxDecided(Run(n, acts[..k]).rs)
  {
    forall k | 0 <= k <= |acts|
      ensures AllAt(Run(n, acts[..k]), cs[k]) && |cs[k]| == MaxDecided(Run(n, acts[..k]).rs) {
      if k < |acts| {
        assert acts[..k] == Front(acts)[..k];
      } else {
        assert acts[..k] == acts;
      }
    }
  }

  // Every replica, after every action of every run, has applied exactly a prefix of one sequence of
  // client proposals; that sequence only grows, and reaches as far as anyone has decided.
  lemma OneCommittedSequence(n: nat, acts: seq<Action>) returns (cs: seq<seq<DecidedValue>>)
    requires n > 0
    ensures |cs| == |acts| + 1 && Growing(cs)
    ensures forall k | 0 <= k <= |acts| ::
              AllAt(Run(n, acts[..k]), cs[k]) && |cs[k]| == MaxDecided(Run(n, acts[..k]).rs)
    ensures forall v | v in Last(cs) :: v in AllProposals(n, acts)
  {
    var h;
    h, cs := RunSequences(n, acts);
    StateAt(Run(n, acts), h);
  }

  // Agreement, between any two replicas at any two moments: with equally many slots applied the
  // databases are equal, and a decided slot both still keep holds the same value.
  lemma Agreement(n: nat, acts: seq<Action>, j: nat, k: nat, a: nat, b: nat)
    requires j <= k <= |acts| && a < n && b < n
    ensures SameHistory(ReplicaAt(n, acts[..j], a), ReplicaAt(n, acts[..k], b))
  {
    var cs := OneCommittedSequence(n, acts);
    RunSize(n, acts[..j]);
    RunSize(n, acts[..k]);
    assert AllAt(Run(n, acts[..j]), cs[j]) && AllAt(Run(n, acts[..k]), cs[k]);
    SameSequence(ReplicaAt(n, acts[..j], a), ReplicaAt(n, acts[..k], b), cs[j], cs[k]);
  }

  ghost predicate SameHistory(ra: Replica, rb: Replica) {
    && (ra.applied == rb.applied ==> ra.db == rb.db && ra.ran == rb.ran)
    && (forall s: nat {:trigger SlotAgrees(ra, rb, s)} | s < ra.decided && s < rb.decided ::
          SlotAgrees(ra, rb, s))
  }

  lemma SameSequence(ra: Replica, rb: Replica, ca: seq<DecidedValue>, cb: seq<DecidedValue>)
    requires At(ra, ca) && At(rb, cb) && ca <= cb
    ensures SameHistory(ra, rb)
  {
    SamePrefix(ca, cb, ra.applied);
    forall s: nat | s < ra.decided && s < rb.decided ensures SlotAgrees(ra, rb, s) {
      SameSlot(ra, rb, ca, cb, s);
    }
  }

  lemma SamePrefix(ca: seq<DecidedValue>, cb: seq<DecidedValue>, k: nat)
    requires ca <= cb && k <= |ca|
    ensures ca[..k] == cb[..k]
  {
  }

  lemma SameSlot(ra: Replica, rb: Replica, ca: seq<DecidedValue>, cb: seq<DecidedValue>, s: nat)
    requires ca <= cb && s < ra.decided <= End(ra) && s < rb.decided <= End(rb)
    requires ra.logBase <= ra.decided <= |ca| && rb.logBase <= rb.decided <= |cb|
    requires ra.log[..ra.decided - ra.logBase] == ca[ra.logBase..ra.decided]
    requires rb.log[..rb.decided - rb.logBase] == cb[rb.logBase..rb.decided]
    ensures SlotAgrees(ra, rb, s)
  {
    if ra.logBase <= s && rb.logBase <= s {
      SlotIs(ra.log, ra.logBase, ra.decided, ca, s);
      SlotIs(rb.log, rb.logBase, rb.decided, cb, s);
    }
  }

  lemma SlotIs(log: seq<DecidedValue>, base: nat, decided: nat, c: seq<DecidedValue>, s: nat)
    requires base <= s < decided <= base + |log| && decided <= |c|
    requires log[..decided - base] == c[base..decided]
    ensures log[s - base] == c[s]
  {
    assert log[s - base] == log[..decided - base][s - base] == c[base..decided][s - base];
  }

  // ---- truncation ----

  // Nobody has truncated past anybody's log end.
  lemma TruncationSafe(n: nat, acts: seq<Action>, i: nat, j: nat)
    requires i < n && j < n
    ensures ReplicaAt(n, acts, i).logBase <= End(ReplicaAt(n, acts, j))
  {
    var h := ReplicaOk(n, acts, i);
    BaseHeld(n, Run(n, acts).rs, h, j);
  }

  // The branches the code leaves unguarded are never taken wrongly: a PROPOSE that is not ignored
  // leaves no gap, and a new round's log ends above everything decided or truncated here.
  lemma NoGap(n: nat, acts: seq<Action>, k: nat)
    requires n > 0 && InFlight(Run(n, acts), k) && Run(n, acts).packets[k].msg.kind == Propose
    ensures Run(n, acts).packets[k].dst < n
    ensures var m := Run(n, acts).packets[k].msg;
            var r := ReplicaAt(n, acts, Run(n, acts).packets[k].dst);
            r.probeRound <= m.round ==>
              && m.slot <= End(r)
              && (m.round > r.ackRound ==> r.logBase <= r.decided <= m.slot + |m.values|)
  {
    var h := RunOk(n, acts);
    var s := Run(n, acts);
    RunSize(n, acts);
    var p := s.packets[k];
    assert p in s.packets && PacketOk(n, s.rs, h, p);
    var r := ReplicaAt(n, acts, p.dst);
    assert RepOk(n, p.dst, r, h);
    if r.probeRound <= p.msg.round {
      ProposeFits(n, s.rs, h, p.dst, p.msg);
    }
  }

  // So every message still under way may be handed to its receiver's Receive.
  lemma DeliveriesAreLegal(n: nat, acts: seq<Action>, k: nat)
    requires n > 0 && InFlight(Run(n, acts), k)
    ensures Run(n, acts).packets[k].dst < n
    ensures Legal(ReplicaAt(n, acts, Run(n, acts).packets[k].dst), Run(n, acts).packets[k].msg)
  {
    var h := RunOk(n, acts);
    var s := Run(n, acts);
    RunSize(n, acts);
    var p := s.packets[k];
    assert p in s.packets && PacketOk(n, s.rs, h, p);
    assert RepOk(n, p.dst, ReplicaAt(n, acts, p.dst), h);
    if p.msg.kind == Propose {
      NoGap(n, acts, k);
    }
  }

  // A candidate can catch up to the base of any log it may adopt, out of its own log.
  lemma CatchUpReaches(n: nat, acts: seq<Action>, i: nat, j: nat, m: Message)
    requires i < n && j < n && m in ReplicaAt(n, acts, i).responses
    ensures m.slot <= End(ReplicaAt(n, acts, j))
  {
    var h := ReplicaOk(n, acts, i);
    assert ResponsesOk(n, Run(n, acts).rs, h, i);
    BaseHeld(n, Run(n, acts).rs, h, j);
  }

  // A leader never truncates past its own log, and a replica that stepped down never decides
  // anything out of the acknowledgements it once collected.
  lemma StaleAcksHarmless(n: nat, acts: seq<Action>, i: nat)
    requires i < n
    ensures var r := ReplicaAt(n, acts, i);
            && |r.followerAck| == n
            && (r.leader == i ==> MinOf(r.followerAck) <= End(r))
            && TryDecide(r) == r
  {
    var h := ReplicaOk(n, acts, i);
    var r := ReplicaAt(n, acts, i);
    assert Settled(Run(n, acts).rs[i]);
    if r.leader == i {
      assert r.followerAck[i] in r.followerAck;
    }
  }

  // ---- cursors ----

  // The cursors keep their order, and decided and applied never go back, whatever happens.
  lemma CursorsOrdered(n: nat, acts: seq<Action>, a: Action, i: nat)
    requires i < n
    ensures var r := ReplicaAt(n, acts, i);
            var r' := ReplicaAt(n, acts + [a], i);
            && r.logBase <= r.applied <= r.decided <= End(r)
            && r.decided <= r'.decided
            && r.applied <= r'.applied
  {
    var h := ReplicaOk(n, acts, i);
    var h' := StepOk(Run(n, acts), h, a);
    assert Front(acts + [a]) == acts;
  }

  // ---- rounds ----

  // A replica that leads owns its round and has accepted its own log in it; so two leaders are in
  // different rounds. A candidate's responses come from different replicas.
  lemma RoundsHaveOneOwner(n: nat, acts: seq<Action>, i: nat, j: nat)
    requires i < n && j < n
    ensures var ri := ReplicaAt(n, acts, i);
            var rj := ReplicaAt(n, acts, j);
            && (ri.leader == i ==> ri.probeRound % n == i && ri.ackRound == ri.probeRound)
            && (ri.leader == i && rj.leader == j && i != j ==> ri.probeRound != rj.probeRound)
            && (forall a, b | 0 <= a < b < |ri.responses| ::
                  ri.responses[a].sender != ri.responses[b].sender)
  {
    var h := ReplicaOk(n, acts, i);
    assert RepOk(n, j, ReplicaAt(n, acts, j), h);
    assert ResponsesOk(n, Run(n, acts).rs, h, i);
  }

  // Where two PROPOSEs both carry a slot, they carry the same value.
  predicate ProposalsAgree(p: Message, q: Message, s: nat) {
    p.slot <= s < p.slot + |p.values| && q.slot <= s < q.slot + |q.values| ==>
      p.values[s - p.slot] == q.values[s - q.slot]
  }

  // All PROPOSEs ever sent in one round are parts of one log ...
  lemma OneLogPerRound(n: nat, acts: seq<Action>, p: Packet, q: Packet, s: nat)
    requires n > 0 && p in Run(n, acts).packets && q in Run(n, acts).packets
    requires p.msg.kind == Propose && q.msg.kind == Propose && p.msg.round == q.msg.round
    ensures ProposalsAgree(p.msg, q.msg, s)
  {
    var h := RunOk(n, acts);
    RunSize(n, acts);
    ProposalIs(n, Run(n, acts).rs, h, Run(n, acts).packets, p, s);
    ProposalIs(n, Run(n, acts).rs, h, Run(n, acts).packets, q, s);
  }

  // A PROPOSE carries its round's log.
  lemma ProposalIs(n: nat, rs: seq<Replica>, h: History, ps: seq<Packet>, p: Packet, s: nat)
    requires n > 0 && |rs| == n && PacketsOk(n, rs, h, ps) && p in ps && p.msg.kind == Propose
    ensures p.msg.slot <= s < p.msg.slot + |p.msg.values| ==>
              && p.msg.round in h.rounds && s < |h.rounds[p.msg.round].log|
              && p.msg.values[s - p.msg.slot] == h.rounds[p.msg.round].log[s]
  {
    assert PacketOk(n, rs, h, p);
  }

  // ... and so are all the logs accepted in it.
  lemma SameRoundSameLog(n: nat, acts: seq<Action>, i: nat, j: nat, s: nat)
    requires i < n && j < n
    requires ReplicaAt(n, acts, i).ackRound == ReplicaAt(n, acts, j).ackRound
    ensures SlotAgrees(ReplicaAt(n, acts, i), ReplicaAt(n, acts, j), s)
  {
    var h := ReplicaOk(n, acts, i);
    assert RepOk(n, j, ReplicaAt(n, acts, j), h);
    PartsAgree(n, i, j, ReplicaAt(n, acts, i), ReplicaAt(n, acts, j), h, s);
  }

  lemma PartsAgree(n: nat, i: nat, j: nat, ri: Replica, rj: Replica, h: History, s: nat)
    requires LogOk(n, i, ri, h) && LogOk(n, j, rj, h) && ri.ackRound == rj.ackRound
    ensures SlotAgrees(ri, rj, s)
  {
  }

  // The leader of the newest round has everything any replica has decided, with the same values.
  lemma NewestLeaderHasAll(n: nat, acts: seq<Action>, l: nat, i: nat)
    requires l < n && i < n && ReplicaAt(n, acts, l).leader == l
    requires ReplicaAt(n, acts, i).ackRound <= ReplicaAt(n, acts, l).ackRound
    ensures ReplicaAt(n, acts, i).decided <= End(ReplicaAt(n, acts, l))
    ensures forall s: nat {:trigger SlotAgrees(ReplicaAt(n, acts, l), ReplicaAt(n, acts, i), s)}
              | s < ReplicaAt(n, acts, i).decided ::
              SlotAgrees(ReplicaAt(n, acts, l), ReplicaAt(n, acts, i), s)
  {
    var h := ReplicaOk(n, acts, l);
    assert RepOk(n, i, ReplicaAt(n, acts, i), h);
    LaterRoundSlots(n, l, i, ReplicaAt(n, acts, l), ReplicaAt(n, acts, i), h);
  }

  lemma LaterRoundSlots(n: nat, l: nat, i: nat, rl: Replica, ri: Replica, h: History)
    requires RoundsOk(n, h) && LogOk(n, l, rl, h) && LogOk(n, i, ri, h) && DecideOk(n, ri, h)
    requires LeaderOk(n, l, rl, h) && rl.leader == l && n > 0 && ri.ackRound <= rl.ackRound
    ensures ri.decided <= End(rl)
    ensures forall s: nat {:trigger SlotAgrees(rl, ri, s)} | s < ri.decided :: SlotAgrees(rl, ri, s)
  {
    LaterRoundAgrees(n, h, ri.ackRound, rl.ackRound, ri.decided);
    var older := h.rounds[ri.ackRound].log;
    var newer := h.rounds[rl.ackRound].log;
    forall s: nat | s < ri.decided ensures SlotAgrees(rl, ri, s) {
      assert newer[s] == newer[..ri.decided][s] && older[s] == older[..ri.decided][s];
    }
  }

  // ---- clients ----

  lemma TicketKept(n: nat, i: nat, r: Replica, h: History, k: nat)
    requires RepOk(n, i, r, h) && r.leader == i && k in r.pending
    requires r.pending[k].round == r.probeRound
    ensures k < r.nextSlot == End(r)
    ensures r.logBase <= k ==> r.log[k - r.logBase] == r.pending[k].value
  {
  }

  // ---- the task machine on every replica ----

  // Every invariant of the task machine holds on every replica, after every run.
  lemma EveryReplicaValid(n: nat, acts: seq<Action>, i: nat) returns (starts: seq<TaskId>)
    requires i < n
    ensures TaskInvariants.Valid(ReplicaAt(n, acts, i).db)
    ensures TaskInvariants.StartsOk(ReplicaAt(n, acts, i).db, starts)
  {
    var c := ReplicaReplays(n, acts, i, i);
    TaskRuns.ReplayValid(c[..ReplicaAt(n, acts, i).applied]);
    starts := TaskRuns.RunStarts(c[..ReplicaAt(n, acts, i).applied]);
  }

  lemma ReplicaReplays(n: nat, acts: seq<Action>, a: nat, b: nat) returns (c: seq<DecidedValue>)
    requires a < n && b < n
    ensures ReplicaAt(n, acts, a).applied <= |c| && ReplicaAt(n, acts, b).applied <= |c|
    ensures ReplicaAt(n, acts, a).db == TM.Replay(c[..ReplicaAt(n, acts, a).applied])
    ensures ReplicaAt(n, acts, b).db == TM.Replay(c[..ReplicaAt(n, acts, b).applied])
  {
    var h := RunOk(n, acts);
    RunSize(n, acts);
    StateAt(Run(n, acts), h);
    c := Committed(Run(n, acts), h);
    assert At(ReplicaAt(n, acts, a), c) && At(ReplicaAt(n, acts, b), c);
  }

  // A replica that has applied at least as much is a later state of the same task machine.
  lemma FurtherAlong(n: nat, acts: seq<Action>, a: nat, b: nat) returns (vs: seq<DecidedValue>)
    requires a < n && b < n
    requires ReplicaAt(n, acts, a).applied <= ReplicaAt(n, acts, b).applied
    ensures ReplicaAt(n, acts, b).db == TaskRuns.RunFrom(ReplicaAt(n, acts, a).db, vs)
  {
    var c := ReplicaReplays(n, acts, a, b);
    vs := LaterState(c, ReplicaAt(n, acts, a).applied, ReplicaAt(n, acts, b).applied);
  }

  lemma LaterState(c: seq<DecidedValue>, x: nat, y: nat) returns (vs: seq<DecidedValue>)
    requires x <= y <= |c|
    ensures TM.Replay(c[..y]) == TaskRuns.RunFrom(TM.Replay(c[..x]), vs)
  {
    vs := c[x..y];
    assert c[..y] == c[..x] + vs;
    TaskRuns.ReplayIsRun(c[..x]);
    TaskRuns.ReplayIsRun(c[..y]);
    TaskRuns.RunSplit(TM.INIT, c[..x], vs);
  }

  // So a token fenced on one replica is fenced on every replica that has applied as much.
  lemma FencedEverywhere(n: nat, acts: seq<Action>, a: nat, b: nat, tok: Token,
                         req: Request, now: int)
    requires a < n && b < n
    requires ReplicaAt(n, acts, a).applied <= ReplicaAt(n, acts, b).applied
    requires TaskRuns.Dead(ReplicaAt(n, acts, a).db, tok) && TaskRuns.Carries(req, tok)
    ensures TM.Process(ReplicaAt(n, acts, b).db, req, now).0 == ReplicaAt(n, acts, b).db
    ensures TM.Process(ReplicaAt(n, acts, b).db, req, now).1.err != Okay
  {
    var vs := FurtherAlong(n, acts, a, b);
    var startsA := EveryReplicaValid(n, acts, a);
    var startsB := EveryReplicaValid(n, acts, b);
    TaskRuns.FencedForever(ReplicaAt(n, acts, a).db, vs, tok);
    TaskRuns.DeadTokenIsPowerless(ReplicaAt(n, acts, b).db, req, now, tok);
  }
}

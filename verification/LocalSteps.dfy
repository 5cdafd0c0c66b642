/** Moves of one replica that leave the history as it is: learning, applying, truncating what
    everyone holds, stepping down, standing for election, recording acknowledgements. */
module LocalSteps {
  import opened Common
  import opened TaskTypes
  import opened Quorums
  import opened ReplicaSpec
  import opened History
  import opened Evolution
  import TM = TaskMachine

  // ---- what the invariant says about truncation ----

  // Everyone has accepted the truncation mark, so it is chosen.
  lemma BaseChosen(n: nat, rs: seq<Replica>, h: History)
    requires n > 0 && |rs| == n && RoundsOk(n, h) && RepsOk(n, rs, h)
    ensures Chosen(n, h, h.baseRound, h.base)
  {
    forall j: nat | j < n ensures j in Ackers(n, h.acc, h.baseRound, h.base) {
      assert RepOk(n, j, rs[j], h);
    }
    SubsetCard(Below(n), Ackers(n, h.acc, h.baseRound, h.base));
  }

  // Every log reaches past every truncation point, and holds the chosen values up to it.
  lemma BaseHeld(n: nat, rs: seq<Replica>, h: History, i: nat)
    requires n > 0 && |rs| == n && RoundsOk(n, h) && RepsOk(n, rs, h) && i < n
    ensures Chosen(n, h, h.baseRound, h.base)
    ensures h.baseRound <= rs[i].ackRound
    ensures h.base <= End(rs[i])
    ensures DecidedBy(n, h, rs[i].ackRound, h.base)
  {
    BaseChosen(n, rs, h);
    assert RepOk(n, i, rs[i], h);
    if h.baseRound < rs[i].ackRound {
      LeaderCompleteness(n, h, h.baseRound, rs[i].ackRound, h.base);
    }
  }

  // What a replica has decided is what the cluster has committed.
  lemma DecidedIsCommitted(n: nat, i: nat, r: Replica, h: History)
    requires RoundsOk(n, h) && CommittedOk(n, h) && RepOk(n, i, r, h)
    ensures r.decided <= |h.committed| && r.decided <= |h.rounds[r.ackRound].log|
    ensures h.rounds[r.ackRound].log[..r.decided] == h.committed[..r.decided]
  {
    var q := DecidedPrefix(n, h, r.ackRound, r.decided);
    ChosenAgree(n, h, q, r.decided, h.chosenRound, |h.committed|);
    assert h.committed[..r.decided] == h.rounds[h.chosenRound].log[..r.decided];
  }

  // ---- applying ----

  lemma ApplyOneDb(n: nat, i: nat, r: Replica, h: History, notify: bool)
    requires LogOk(n, i, r, h) && DbOk(r, h) && CanApply(r)
    ensures DbOk(ApplyOne(r, notify), h)
    ensures r.log[r.applied - r.logBase] == h.rounds[r.ackRound].log[r.applied]
  {
    var log := h.rounds[r.ackRound].log;
    var v := r.log[r.applied - r.logBase];
    PartAt(log, r.log, r.logBase, End(r), r.applied);
    ApplyOneIs(r, notify);
    ApplyOneRuns(r, notify);
    RunOneMore(r.ran, v);
    assert log[..r.applied + 1] == log[..r.applied] + [v];
  }

  lemma PartAt(log: seq<DecidedValue>, part: seq<DecidedValue>, base: nat, end: nat, s: nat)
    requires base <= s < end <= |log| && part == log[base..end]
    ensures part[s - base] == log[s]
  {
  }

  lemma ApplyOneIs(r: Replica, notify: bool)
    requires CanApply(r)
    ensures var r1 := ApplyOne(r, notify);
            var v := r.log[r.applied - r.logBase];
            && r1.ran == r.ran + [v]
            && r1.applied == r.applied + 1 && r1.ackRound == r.ackRound
  {
  }

  lemma ApplyOneRuns(r: Replica, notify: bool)
    requires CanApply(r)
    ensures var v := r.log[r.applied - r.logBase];
            ApplyOne(r, notify).db == TM.Process(r.db, v.req, v.now).0
  {
  }

  lemma RunOneMore(ran: seq<DecidedValue>, v: DecidedValue)
    ensures TM.Process(TM.Replay(ran), v.req, v.now).0 == TM.Replay(ran + [v])
  {
    assert Front(ran + [v]) == ran;
  }

  // The client waiting on the slot is told the outcome of what was committed there.
  lemma ApplyOneReplies(n: nat, i: nat, r: Replica, h: History, notify: bool)
    requires LogOk(n, i, r, h) && DbOk(r, h) && CanApply(r)
    requires r.applied < r.decided <= |h.committed| && r.decided <= |h.rounds[r.ackRound].log|
    requires h.rounds[r.ackRound].log[..r.decided] == h.committed[..r.decided]
    requires PendingOk(r, h) && RepliesOk(r, h)
    ensures PendingOk(ApplyOne(r, notify), h) && RepliesOk(ApplyOne(r, notify), h)
  {
    var log := h.rounds[r.ackRound].log;
    var k := r.applied;
    ApplyOneDb(n, i, r, h, notify);
    assert log[..k] == log[..r.decided][..k] && h.committed[..k] == h.committed[..r.decided][..k];
    assert log[k] == log[..r.decided][k] && h.committed[k] == h.committed[..r.decided][k];
    if notify && k in r.pending {
      NewReply(r, h);
    }
  }

  lemma NewReply(r: Replica, h: History)
    requires CanApply(r) && r.applied in r.pending && PendingOk(r, h)
    requires r.ackRound in h.rounds && r.applied < |h.committed|
    requires r.applied < |h.rounds[r.ackRound].log|
    requires r.log[r.applied - r.logBase] == h.rounds[r.ackRound].log[r.applied]
    requires h.rounds[r.ackRound].log[r.applied] == h.committed[r.applied]
    requires r.db == TM.Replay(h.committed[..r.applied])
    ensures exists p :: ReplyOk(p, h) && ApplyOne(r, true).replies == r.replies + [p]
  {
    var k := r.applied;
    var v := h.committed[k];
    var p := Reply(r.pending[k], k, Outcome(h.committed, k), v.now, r.ackRound);
    ReplySound(p, h);
    ReplyAdded(r, v, p.resp);
  }

  lemma ReplySound(p: Reply, h: History)
    requires p.slot < |h.committed| && p.resp == Outcome(h.committed, p.slot)
    requires p.now == h.committed[p.slot].now
    requires p.round in h.rounds && p.slot < |h.rounds[p.round].log|
    requires h.rounds[p.round].log[p.slot] == h.committed[p.slot]
    requires InTail(h, p.ticket.round, p.slot)
    requires h.rounds[p.ticket.round].log[p.slot] == p.ticket.value
    ensures ReplyOk(p, h)
  {
  }

  lemma ReplyAdded(r: Replica, v: DecidedValue, resp: Response)
    requires CanApply(r) && r.applied in r.pending && v == r.log[r.applied - r.logBase]
    requires resp == TM.Process(r.db, v.req, v.now).1
    ensures ApplyOne(r, true).replies
            == r.replies + [Reply(r.pending[r.applied], r.applied, resp, v.now, r.ackRound)]
  {
  }

  lemma ApplyOneOk(n: nat, i: nat, r: Replica, h: History, notify: bool)
    requires RoundsOk(n, h) && CommittedOk(n, h) && RepOk(n, i, r, h)
    requires r.applied < r.decided
    ensures CanApply(r) && RepOk(n, i, ApplyOne(r, notify), h)
  {
    DecidedIsCommitted(n, i, r, h);
    ApplyOneDb(n, i, r, h, notify);
    ApplyOneReplies(n, i, r, h, notify);
    ApplyOneFrame(n, i, r, h, ApplyOne(r, notify));
  }

  // The parts of the invariant that applying does not touch.
  lemma ApplyOneFrame(n: nat, i: nat, r: Replica, h: History, r': Replica)
    requires RepOk(n, i, r, h) && r.applied < r.decided
    requires AppliedOnly(r, r') && r'.applied == r.applied + 1
    ensures Shape(n, i, r') && CursorsOk(r') && LogOk(n, i, r', h) && BaseOk(i, r', h)
    ensures DecideOk(n, r', h) && LeaderOk(n, i, r', h)
  {
  }

  lemma {:induction false} ApplyToOk(n: nat, i: nat, r: Replica, h: History, t: nat, notify: bool)
    requires RoundsOk(n, h) && CommittedOk(n, h) && RepOk(n, i, r, h)
    requires t <= r.decided
    ensures RepOk(n, i, ApplyTo(r, t, notify), h)
    ensures ApplyTo(r, t, notify).applied == Max(r.applied, t)
    ensures AppliedOnly(r, ApplyTo(r, t, notify))
    decreases t - r.applied
  {
    if t <= r.applied {
    } else {
      ApplyOneOk(n, i, r, h, notify);
      ApplyToOk(n, i, ApplyOne(r, notify), h, t, notify);
    }
  }

  // r' differs from r only in what applying changes.
  predicate AppliedOnly(r: Replica, r': Replica) {
    r' == r.(db := r'.db, applied := r'.applied, pending := r'.pending, replies := r'.replies,
             ran := r'.ran, logged := r'.logged)
  }

  // ---- learning and truncating ----

  lemma LearnOk(n: nat, i: nat, r: Replica, h: History, d: nat)
    requires RoundsOk(n, h) && RepOk(n, i, r, h)
    requires DecidedBy(n, h, r.ackRound, d) && d <= End(r) && d <= |h.committed|
    ensures RepOk(n, i, r.(decided := Max(r.decided, d)), h)
  {
    if r.decided < d {
      var r' := r.(decided := d);
      assert DecideOk(n, r', h);
    }
  }

  lemma TruncateOk(n: nat, i: nat, r: Replica, h: History, t: nat)
    requires RepOk(n, i, r, h)
    requires t <= h.base && t <= r.applied
    ensures RepOk(n, i, TruncateTo(r, t), h)
    ensures End(TruncateTo(r, t)) == End(r)
  {
    if r.logBase < t {
      var log := h.rounds[r.ackRound].log;
      assert log[r.logBase..End(r)][t - r.logBase..] == log[t..End(r)];
    }
  }

  // Catching up to a slot everyone holds: the entries are chosen though this replica never learned so.
  lemma CatchUpOk(n: nat, i: nat, r: Replica, h: History, t: nat)
    requires RoundsOk(n, h) && CommittedOk(n, h) && RepOk(n, i, r, h)
    requires DecidedBy(n, h, r.ackRound, h.base) && h.base <= End(r) && t <= h.base
    ensures RepOk(n, i, CatchUp(r, t), h)
    ensures CatchUp(r, t).applied == Max(r.applied, t)
    ensures AppliedOnly(r.(decided := Max(r.decided, t)), CatchUp(r, t))
  {
    DecidedShorter(n, h, r.ackRound, h.base, t);
    LearnOk(n, i, r, h, t);
    var r1 := r.(decided := Max(r.decided, t));
    ApplyToOk(n, i, r1, h, t, false);
    CatchUpIsApply(r, t);
  }

  // The catch-up loop's final max on applied is idle when the loop reached t: no slot is skipped.
  lemma CatchUpIsApply(r: Replica, t: nat)
    requires ApplyTo(r.(decided := Max(r.decided, t)), t, false).applied >= t
    ensures CatchUp(r, t) == ApplyTo(r.(decided := Max(r.decided, t)), t, false)
  {
    var d := Max(r.decided, t);
    ApplyCommutes(r, t, d);
    ApplyToFrame(r, t, false);
  }

  // Applying changes nothing but the database, the cursor and the clients it answers.
  lemma {:induction false} ApplyToFrame(r: Replica, t: nat, notify: bool)
    ensures AppliedOnly(r, ApplyTo(r, t, notify))
    decreases End(r) - r.applied
  {
    if t <= r.applied || !CanApply(r) {
    } else {
      ApplyToFrame(ApplyOne(r, notify), t, notify);
    }
  }

  lemma DecidedShorter(n: nat, h: History, r: nat, d: nat, t: nat)
    requires DecidedBy(n, h, r, d) && t <= d
    ensures DecidedBy(n, h, r, t)
  {
    var q :| q in h.rounds && q <= r && Chosen(n, h, q, d);
    ChosenShorter(n, h, q, d, t);
  }

  // Deciding before or after applying makes no difference to what is applied.
  lemma {:induction false} ApplyCommutes(r: Replica, t: nat, d: nat)
    ensures ApplyTo(r.(decided := d), t, false) == ApplyTo(r, t, false).(decided := d)
    decreases End(r) - r.applied
  {
    if t <= r.applied || !CanApply(r) {
    } else {
      assert ApplyOne(r.(decided := d), false) == ApplyOne(r, false).(decided := d);
      ApplyCommutes(ApplyOne(r, false), t, d);
    }
  }
}

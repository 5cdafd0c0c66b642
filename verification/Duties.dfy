/** What each handler of a replica does and sends, field by field, in every state that can occur:
    majorities as more than half, sends message by message, logs slot by slot. */
module Duties {
  import opened Common
  import opened TaskTypes
  import opened Quorums
  import opened ReplicaSpec
  import LocalSteps
  import Waiting
  import PaxosReplica

  // ---- the states that occur ----

  // Everything a majority has acknowledged is decided, and everything decided is applied.
  ghost predicate UpToDate(r: Replica) {
    && r.logBase <= r.applied == r.decided <= End(r)
    && (forall m: nat :: 2 * |AtLeast(r.followerAck, m)| > |r.followerAck| ==> m <= r.decided)
  }

  // A leader has acknowledged its own whole log, and truncated exactly what everyone has.
  predicate Tidy(r: Replica) {
    r.leader == r.index < |r.followerAck| ==>
      && r.ackRound == r.probeRound
      && r.followerAck[r.index] == End(r) == r.nextSlot
      && (forall j | 0 <= j < |r.followerAck| :: r.logBase <= r.followerAck[j] <= End(r))
      && (exists j | 0 <= j < |r.followerAck| :: r.followerAck[j] == r.logBase)
  }

  ghost predicate Fit(r: Replica) {
    && r.index < r.n == |r.followerAck|
    && r.ackRound <= r.probeRound && r.electionRound <= r.probeRound
    && UpToDate(r)
    && Tidy(r)
  }

  // A replica that hears of round m.round, no older than its own, is in that round; if it is newer,
  // the sender leads.
  function Joined(r: Replica, m: Message): Replica {
    r.(probeRound := m.round, leader := if m.round > r.probeRound then m.sender else r.leader)
  }

  // ---- what is sent ----

  // The x-th replica other than i.
  function Other(i: nat, x: nat): nat { if x < i then x else x + 1 }

  // A leader's PROPOSE for replica j: its log from what j has acknowledged on.
  predicate IsMissing(r: Replica, j: nat, p: Packet)
    requires j < |r.followerAck|
  {
    var start := r.followerAck[j];
    && r.logBase <= start <= End(r)
    && p == Packet(j, Message(Propose, r.index, start, r.log[start - r.logBase..], 0, r.decided,
                              r.probeRound, 0, r.logBase))
  }

  // Every other replica is sent just what it misses, once, in order.
  predicate SentMissing(r: Replica, out: seq<Packet>)
    requires r.index < r.n == |r.followerAck|
  {
    |out| == r.n - 1 && forall x | 0 <= x < |out| :: IsMissing(r, Other(r.index, x), out[x])
  }

  // Every other replica is sent m, once, in order.
  predicate SentToOthers(r: Replica, m: Message, out: seq<Packet>)
    requires r.index < r.n
  {
    |out| == r.n - 1 && forall x | 0 <= x < |out| :: out[x] == Packet(Other(r.index, x), m)
  }

  // The same for the others below k.
  predicate MissingBelow(r: Replica, k: nat, out: seq<Packet>)
    requires k <= |r.followerAck|
  {
    && |out| == (if r.index < k then k - 1 else k)
    && forall x | 0 <= x < |out| ::
         Other(r.index, x) < k && IsMissing(r, Other(r.index, x), out[x])
  }

  lemma OneMore(r: Replica, k: nat, out: seq<Packet>, p: Packet)
    requires k < |r.followerAck| && k != r.index
    requires MissingBelow(r, k, out) && IsMissing(r, k, p)
    ensures MissingBelow(r, k + 1, out + [p])
  {
    var next := out + [p];
    forall x | 0 <= x < |next|
      ensures Other(r.index, x) < k + 1 && IsMissing(r, Other(r.index, x), next[x]) {
      if x < |out| {
        assert next[x] == out[x];
      }
    }
  }

  lemma {:induction false} ProposesBelow(r: Replica, k: nat)
    requires k <= |r.followerAck|
    requires forall j | 0 <= j < |r.followerAck| :: r.logBase <= r.followerAck[j] <= End(r)
    ensures MissingBelow(r, k, ProposeBelow(r, k))
  {
    if k == 0 {
    } else {
      ProposesBelow(r, k - 1);
      if k - 1 == r.index {
        assert ProposeBelow(r, k) == ProposeBelow(r, k - 1);
      } else {
        OneMore(r, k - 1, ProposeBelow(r, k - 1), Packet(k - 1, ProposeFor(r, k - 1)));
      }
    }
  }

  lemma Broadcasts(r: Replica)
    requires r.index < r.n == |r.followerAck|
    requires forall j | 0 <= j < |r.followerAck| :: r.logBase <= r.followerAck[j] <= End(r)
    ensures SentMissing(r, SendPropose(r))
  {
    ProposesBelow(r, r.n);
  }

  lemma {:induction false} ProbesBelow(r: Replica, k: nat, m: Message)
    requires m == Message(Probe, r.index, 0, [], 0, r.decided, r.electionRound, 0, 0)
    ensures var out := ProbeBelow(r, k);
            && |out| == (if r.index < k then k - 1 else k)
            && forall x | 0 <= x < |out| :: out[x] == Packet(Other(r.index, x), m)
  {
    if k == 0 {
    } else {
      ProbesBelow(r, k - 1, m);
    }
  }

  // ---- deciding and truncating ----

  lemma CommitIsDecided(r: Replica)
    requires |r.followerAck| > 0 && UpToDate(r)
    ensures CommitPoint(r.followerAck) <= r.decided
  {
    CommitPointIsMajority(r.followerAck, CommitPoint(r.followerAck));
  }

  // When nothing is left to decide or to truncate, apply_decided is idle.
  lemma NothingToDo(r: Replica)
    requires |r.followerAck| > 0 && UpToDate(r)
    requires r.leader == r.index ==> exists j | 0 <= j < |r.followerAck| :: r.followerAck[j] <= r.logBase
    ensures ApplyDecided(r) == r
  {
    CommitIsDecided(r);
    assert TryDecide(r) == r;
    assert ApplyTo(r, r.decided, true) == r;
    if r.leader == r.index {
      var j :| 0 <= j < |r.followerAck| && r.followerAck[j] <= r.logBase;
      assert r.followerAck[j] in r.followerAck;
    }
  }

  // ---- timers ----

  // A leader's timer: everyone else is sent what it misses, and nothing else happens.
  lemma LeaderResends(r: Replica, silent: bool)
    requires Fit(r) && r.leader == r.index
    ensures var e := Timeout(r, silent);
            e.r == r && SentMissing(r, e.out)
  {
    NothingToDo(r);
    Broadcasts(r);
  }

  // A follower whose leader was silent asks everyone else for a promise, for its own round in the next
  // block of n rounds, and reports its own log to itself.
  lemma FollowerStands(r: Replica)
    requires Fit(r) && r.leader != r.index && r.n > 1
    ensures var e := Timeout(r, true);
            && e.r.probeRound % r.n == r.index
            && e.r.probeRound / r.n == r.probeRound / r.n + 1
            && e.r == r.(probeRound := e.r.probeRound, electionRound := e.r.probeRound,
                         responses := [Message(Prepare, r.index, r.logBase, r.log, End(r), r.decided,
                                               e.r.probeRound, r.ackRound, 0)])
            && SentToOthers(r, Message(Probe, r.index, 0, [], 0, r.decided, e.r.probeRound, 0, 0),
                            e.out)
  {
    var q := r.probeRound / r.n;
    assert NextRound(r) == r.n * (q + 1) + r.index;
    ModOfMultiple(r.n, q + 1, r.index);
    QuotientUnique(r.n, NextRound(r) / r.n, NextRound(r) % r.n, q + 1, r.index);
    ProbesBelow(Candidate(r), r.n, ProbeFor(Candidate(r)));
    QuorumIs(r.n, 1);
  }

  lemma FollowerWaits(r: Replica)
    requires r.n > 0 && r.leader != r.index
    ensures Timeout(r, false) == Effect(r, [])
  {
  }

  // ---- messages ----

  lemma IgnoresOld(r: Replica, m: Message)
    requires m.round < r.probeRound
    ensures Receive(r, m) == Effect(r, [])
  {
  }

  // A PROBE is answered with the whole log.
  lemma Promises(r: Replica, m: Message)
    requires r.probeRound <= m.round && m.kind == Probe
    ensures Receive(r, m)
            == Effect(Joined(r, m),
                      [Packet(m.sender, Message(Prepare, r.index, r.logBase, r.log, End(r), r.decided,
                                                m.round, r.ackRound, 0))])
  {
  }

  // A PREPARE is collected if it answers the election this replica stands in, and it makes a leader
  // exactly when the responses then first exceed half of the replicas.
  lemma Collects(r: Replica, m: Message)
    requires Fit(r) && r.probeRound <= m.round && m.kind == Prepare
    ensures m.round != r.electionRound ==> Receive(r, m) == Effect(Joined(r, m), [])
    ensures m.round == r.electionRound && !(2 * |r.responses| <= r.n < 2 * (|r.responses| + 1)) ==>
              Receive(r, m) == Effect(r.(responses := r.responses + [m]), [])
    ensures m.round == r.electionRound && 2 * |r.responses| <= r.n < 2 * (|r.responses| + 1) ==>
              Receive(r, m) == BecomeLeader(r.(responses := r.responses + [m]))
  {
    QuorumIs(r.n, |r.responses|);
    QuorumIs(r.n, |r.responses| + 1);
  }

  // A follower ignores acknowledgements.
  lemma IgnoresAck(r: Replica, m: Message)
    requires r.probeRound <= m.round && m.kind == Ack && Joined(r, m).leader != r.index
    ensures Receive(r, m) == Effect(Joined(r, m), [])
  {
  }

  // ---- a leader decides, applies and truncates ----

  // From r to r2: everything a majority has acknowledged is decided and applied, and what everyone
  // has acknowledged is truncated, no more and no less.
  ghost predicate Settles(r: Replica, r2: Replica) {
    && (forall x: nat :: x <= r2.decided <==>
          x <= r.decided || 2 * |AtLeast(r.followerAck, x)| > |r.followerAck|)
    && r2.applied == r2.decided
    && r.logBase <= r2.logBase <= End(r)
    && r2.log == r.log[r2.logBase - r.logBase..]
    && (forall j | 0 <= j < |r.followerAck| :: r2.logBase <= r.followerAck[j])
    && (exists j | 0 <= j < |r.followerAck| :: r2.logBase == r.followerAck[j])
    && SameOffice(r, r2)
  }

  // Rounds, leadership, acknowledgements and election are untouched.
  predicate SameOffice(r: Replica, r2: Replica) {
    && r2.index == r.index && r2.n == r.n && r2.leader == r.leader
    && r2.nextSlot == r.nextSlot && r2.followerAck == r.followerAck
    && r2.probeRound == r.probeRound && r2.ackRound == r.ackRound
    && r2.electionRound == r.electionRound && r2.responses == r.responses
  }

  lemma {:induction false} ApplyToExact(r: Replica, t: nat)
    requires r.logBase <= r.applied
    ensures ApplyTo(r, t, true).applied == Max(r.applied, Min(t, End(r)))
    decreases End(r) - r.applied
  {
    if t <= r.applied || !CanApply(r) {
    } else {
      ApplyToExact(ApplyOne(r, true), t);
    }
  }

  // What a leader needs to know of itself before it settles.
  predicate Leads(r: Replica) {
    && r.leader == r.index < |r.followerAck|
    && r.logBase <= r.applied == r.decided <= End(r)
    && r.followerAck[r.index] == End(r)
    && (forall j | 0 <= j < |r.followerAck| :: r.logBase <= r.followerAck[j] <= End(r))
  }

  lemma Deciding(r: Replica)
    requires Leads(r)
    ensures var d := TryDecide(r).decided;
            && d <= End(r)
            && forall x: nat :: x <= d <==>
                 x <= r.decided || 2 * |AtLeast(r.followerAck, x)| > |r.followerAck|
  {
    CommitPointBound(r.followerAck, End(r));
    forall x: nat ensures x <= CommitPoint(r.followerAck) <==>
                          2 * |AtLeast(r.followerAck, x)| > |r.followerAck| {
      CommitPointIsMajority(r.followerAck, x);
    }
  }

  lemma Truncating(r: Replica)
    requires |r.followerAck| > 0 && forall j | 0 <= j < |r.followerAck| :: r.logBase <= r.followerAck[j]
    requires exists j | 0 <= j < |r.followerAck| :: r.followerAck[j] <= End(r)
    ensures var r2 := TryTruncate(r);
            && r.logBase <= r2.logBase <= End(r)
            && r2 == r.(logBase := r2.logBase, log := r.log[r2.logBase - r.logBase..])
            && (forall j | 0 <= j < |r.followerAck| :: r2.logBase <= r.followerAck[j])
            && (exists j | 0 <= j < |r.followerAck| :: r2.logBase == r.followerAck[j])
  {
    var m := MinOf(r.followerAck);
    var k :| 0 <= k < |r.followerAck| && r.followerAck[k] == m;
    var j :| 0 <= j < |r.followerAck| && r.followerAck[j] <= End(r);
    assert r.followerAck[j] in r.followerAck;
    forall x | 0 <= x < |r.followerAck| ensures m <= r.followerAck[x] {
      assert r.followerAck[x] in r.followerAck;
    }
  }

  lemma LeaderSettles(r: Replica)
    requires Leads(r)
    ensures Settles(r, ApplyDecided(r))
  {
    var r1 := TryDecide(r);
    Deciding(r);
    ApplyToExact(r1, r1.decided);
    LocalSteps.ApplyToFrame(r1, r1.decided, true);
    Truncating(ApplyTo(r1, r1.decided, true));
  }

  // ---- acknowledgements ----

  // A leader that hears an acknowledgement of its round keeps the larger of what it knew and what it
  // heard of the sender, leaves every other entry alone, and settles. It answers nothing.
  lemma LeaderHears(r: Replica, m: Message)
    requires Fit(r) && r.leader == r.index && m.round == r.probeRound && m.kind == Ack
    requires m.sender < r.n && m.sender != r.index && m.ackSlot <= End(r)
    ensures var e := Receive(r, m);
            var r1 := r.(followerAck := e.r.followerAck);
            && e.out == []
            && |e.r.followerAck| == r.n
            && e.r.followerAck[m.sender]
               == (if m.ackSlot > r.followerAck[m.sender] then m.ackSlot else r.followerAck[m.sender])
            && (forall j | 0 <= j < r.n && j != m.sender :: e.r.followerAck[j] == r.followerAck[j])
            && Settles(r1, e.r)
  {
    var r2 := RecordAck(r, m);
    HearIs(r, m);
    Recorded(r, m);
    LeaderSettles(r2);
    HeardSettles(r, r2, ApplyDecided(r2));
  }

  lemma HearIs(r: Replica, m: Message)
    requires r.leader == r.index && m.round == r.probeRound && m.kind == Ack
    ensures Receive(r, m) == Effect(ApplyDecided(RecordAck(r, m)), [])
  {
  }

  lemma Recorded(r: Replica, m: Message)
    requires Fit(r) && r.leader == r.index && m.round == r.probeRound && m.kind == Ack
    requires m.sender < r.n && m.sender != r.index && m.ackSlot <= End(r)
    ensures var r2 := RecordAck(r, m);
            && r2 == r.(followerAck := r2.followerAck) && |r2.followerAck| == r.n
            && r2.followerAck[m.sender]
               == (if m.ackSlot > r.followerAck[m.sender] then m.ackSlot else r.followerAck[m.sender])
            && (forall j | 0 <= j < r.n && j != m.sender :: r2.followerAck[j] == r.followerAck[j])
            && Leads(r2)
  {
  }

  lemma HeardSettles(r: Replica, r2: Replica, r': Replica)
    requires Settles(r2, r') && r2 == r.(followerAck := r2.followerAck)
    ensures r'.followerAck == r2.followerAck
    ensures Settles(r.(followerAck := r'.followerAck), r')
  {
  }

  // ---- a follower and its leader's PROPOSE ----

  // The value the follower then holds at slot x.
  predicate Took(r: Replica, m: Message, r': Replica, x: nat)
    requires r'.logBase <= x < End(r') <= m.slot + |m.values| && r.logBase <= r'.logBase
    requires m.slot <= End(r)
  {
    r'.log[x - r'.logBase] == if m.slot <= x then m.values[x - m.slot] else r.log[x - r.logBase]
  }

  function AckOf(r: Replica): Message {
    Message(Ack, r.index, 0, [], End(r), r.decided, r.probeRound, 0, 0)
  }

  lemma TakesNothing(r: Replica, m: Message)
    requires r.probeRound <= m.round == r.ackRound && m.kind == Propose && r.leader != r.index
    requires m.slot + |m.values| < End(r) && r.ackRound <= r.probeRound
    ensures Receive(r, m) == Effect(r.(leader := m.sender), [Packet(m.sender, AckOf(r))])
  {
  }

  // Any other PROPOSE of its round or a newer one: from then on the follower is in that round behind
  // the sender, its log ends where the message does and has its values, what the message says is
  // decided is decided and applied, what it says is truncated, as far as applied, is truncated, and
  // the sender gets an acknowledgement of the whole log.
  lemma FollowerTakes(r: Replica, m: Message)
    requires Fit(r) && r.probeRound <= m.round && m.kind == Propose
    requires Joined(r, m).leader != r.index && m.sender != r.index
    requires m.slot <= End(r) && r.decided <= m.slot + |m.values| && m.decidedSlot <= m.slot + |m.values|
    requires m.round == r.ackRound ==> End(r) <= m.slot + |m.values|
    ensures var e := Receive(r, m);
            Taken(r, m, e.r) && e.out == [Packet(m.sender, AckOf(e.r))]
  {
    CommitIsDecided(r);
    var r1, r3 := Learns(r, m);
    var t := Min(m.truncationSlot, r3.applied);
    Cuts(r3, t);
    TakeIs(r, m, r3, TruncateTo(r3, t));
    CutTaken(r, m, r1, r3, TruncateTo(r3, t));
  }

  // The values taken over and what is decided of them applied, before anything is truncated.
  lemma Learns(r: Replica, m: Message) returns (r1: Replica, r3: Replica)
    requires |r.followerAck| > 0 && CommitPoint(r.followerAck) <= r.decided
    requires r.logBase <= r.applied == r.decided && m.sender != r.index
    requires m.slot <= End(r) && r.decided <= m.slot + |m.values| && m.decidedSlot <= m.slot + |m.values|
    requires m.round <= r.ackRound ==> End(r) <= m.slot + |m.values|
    ensures r1 == AcceptLog(Joined(r, m), m)
    ensures r3 == ApplyDecided(r1.(decided := Max(r1.decided, m.decidedSlot)))
    ensures r1 == Joined(r, m).(leader := m.sender, ackRound := m.round, log := r1.log)
    ensures End(r1) == m.slot + |m.values|
    ensures TookAll(r.log, r.logBase, m, r1.log)
    ensures LocalSteps.AppliedOnly(r1.(decided := Max(r1.decided, m.decidedSlot)), r3)
    ensures r3.applied == r3.decided == Max(r.decided, m.decidedSlot)
  {
    r1 := Accepts(r, m, Joined(r, m));
    FollowerApplies(r1.(decided := Max(r1.decided, m.decidedSlot)));
    r3 := ApplyDecided(r1.(decided := Max(r1.decided, m.decidedSlot)));
  }

  lemma Accepts(r: Replica, m: Message, j: Replica) returns (r1: Replica)
    requires j == Joined(r, m)
    requires r.logBase <= m.slot + |m.values| && m.slot <= End(r)
    requires m.round <= r.ackRound ==> End(r) <= m.slot + |m.values|
    ensures r1 == AcceptLog(j, m)
    ensures r1 == j.(leader := m.sender, ackRound := m.round, log := r1.log)
    ensures End(r1) == m.slot + |m.values|
    ensures TookAll(r.log, r.logBase, m, r1.log)
  {
    r1 := AcceptLog(j, m);
    Accepted(j, m);
  }

  ghost predicate Taken(r: Replica, m: Message, r': Replica)
    requires m.slot <= End(r)
  {
    && r'.leader == m.sender && r'.probeRound == m.round == r'.ackRound
    && End(r') == m.slot + |m.values|
    && r'.decided == (if m.decidedSlot > r.decided then m.decidedSlot else r.decided)
    && r'.applied == r'.decided
    && r'.logBase == Max(r.logBase, Min(m.truncationSlot, r'.applied))
    && (forall x | r'.logBase <= x < End(r') :: Took(r, m, r', x))
    && r'.followerAck == r.followerAck && r'.nextSlot == r.nextSlot
    && r'.electionRound == r.electionRound && r'.responses == r.responses
  }

  lemma TakeIs(r: Replica, m: Message, r3: Replica, r4: Replica)
    requires r.probeRound <= m.round && m.kind == Propose && Joined(r, m).leader != r.index
    requires !StalePropose(Joined(r, m), m)
    requires var r1 := AcceptLog(Joined(r, m), m);
             r3 == ApplyDecided(r1.(decided := Max(r1.decided, m.decidedSlot)))
    requires r4 == TruncateTo(r3, Min(m.truncationSlot, r3.applied)) && r4.probeRound == m.round
    ensures Receive(r, m) == Effect(r4, [Packet(m.sender, AckOf(r4))])
  {
    assert StepDown(r, m) == Joined(r, m);
  }

  lemma CutTaken(r: Replica, m: Message, r1: Replica, r3: Replica, r4: Replica)
    requires m.slot <= End(r) && r.logBase <= r.applied
    requires r1 == Joined(r, m).(leader := m.sender, ackRound := m.round, log := r1.log)
    requires End(r1) == m.slot + |m.values|
    requires TookAll(r.log, r.logBase, m, r1.log)
    requires LocalSteps.AppliedOnly(r1.(decided := Max(r1.decided, m.decidedSlot)), r3)
    requires r3.applied == r3.decided
    requires r4.logBase == Max(r3.logBase, Min(m.truncationSlot, r3.applied)) <= End(r3)
    requires r4 == r3.(logBase := r4.logBase, log := r3.log[r4.logBase - r3.logBase..])
    ensures Taken(r, m, r4)
  {
    forall x | r4.logBase <= x < End(r4) ensures Took(r, m, r4, x) {
      assert TookAt(r.log, r.logBase, m, r1.log, x);
      assert r4.log[x - r4.logBase] == r1.log[x - r.logBase];
    }
  }

  // A log from the same base on has the message's value at slot x, or the older log's below the message.
  predicate TookAt(older: seq<DecidedValue>, base: nat, m: Message, log: seq<DecidedValue>, x: nat)
    requires m.slot <= base + |older| && base <= x < base + |log|
    requires x < m.slot + |m.values|
  {
    log[x - base] == if m.slot <= x then m.values[x - m.slot] else older[x - base]
  }

  // It ends where the message does, and so at every slot.
  predicate TookAll(older: seq<DecidedValue>, base: nat, m: Message, log: seq<DecidedValue>) {
    && m.slot <= base + |older| && base + |log| == m.slot + |m.values|
    && forall x {:trigger TookAt(older, base, m, log, x)} | base <= x < base + |log| ::
         TookAt(older, base, m, log, x)
  }

  lemma Accepted(r: Replica, m: Message)
    requires r.logBase <= m.slot + |m.values| && m.slot <= End(r)
    requires m.round <= r.ackRound ==> End(r) <= m.slot + |m.values|
    ensures var r1 := AcceptLog(r, m);
            && r1 == r.(leader := m.sender, ackRound := m.round, log := r1.log)
            && End(r1) == m.slot + |m.values|
            && TookAll(r.log, r.logBase, m, r1.log)
  {
    var w := Written(r.log, r.logBase, m.slot, m.values);
    PaxosReplica.WrittenAt(r.log, r.logBase, m.slot, m.values);
    AcceptIsCut(r, m, w);
    CutTook(r, m, w, AcceptLog(r, m).log);
  }

  lemma AcceptIsCut(r: Replica, m: Message, w: seq<DecidedValue>)
    requires r.logBase <= m.slot + |m.values| && m.slot <= End(r)
    requires m.round <= r.ackRound ==> End(r) <= m.slot + |m.values|
    requires w == Written(r.log, r.logBase, m.slot, m.values)
    requires |w| == Max(|r.log|, m.slot + |m.values| - r.logBase)
    ensures AcceptLog(r, m) == r.(leader := m.sender, ackRound := m.round,
                                  log := w[..m.slot + |m.values| - r.logBase])
  {
    if |w| == m.slot + |m.values| - r.logBase {
      assert w[..|w|] == w;
    }
  }

  lemma CutTook(r: Replica, m: Message, w: seq<DecidedValue>, log: seq<DecidedValue>)
    requires r.logBase <= m.slot + |m.values| && m.slot <= End(r)
    requires PaxosReplica.IsWritten(w, r.log, r.logBase, m.slot, m.values)
    requires log == w[..m.slot + |m.values| - r.logBase]
    ensures TookAll(r.log, r.logBase, m, log)
  {
    forall x | r.logBase <= x < r.logBase + |log| ensures TookAt(r.log, r.logBase, m, log, x) {
      var p := x - r.logBase;
      assert log[p] == w[p];
    }
  }

  lemma FollowerApplies(r: Replica)
    requires r.leader != r.index && |r.followerAck| > 0 && CommitPoint(r.followerAck) <= r.decided
    requires r.logBase <= r.applied <= r.decided <= End(r)
    ensures var r' := ApplyDecided(r);
            && r'.applied == r.decided
            && LocalSteps.AppliedOnly(r, r')
  {
    ApplyToExact(r, r.decided);
    LocalSteps.ApplyToFrame(r, r.decided, true);
    assert TryDecide(r) == r;
  }

  lemma Cuts(r: Replica, t: nat)
    requires t <= End(r)
    ensures var r' := TruncateTo(r, t);
            && r'.logBase == Max(r.logBase, t) <= Max(r.logBase, End(r))
            && r' == r.(logBase := r'.logBase, log := r.log[r'.logBase - r.logBase..])
  {
  }

  // ---- a client ----

  // A leader registers the client at its next slot, appends its value, under its own clock, to the
  // log, sends everyone what they miss, and settles.
  lemma LeaderProposes(r: Replica, id: nat, req: Request, now: int)
    requires Fit(r) && r.leader == r.index
    ensures var e := ClientPropose(r, id, req, now);
            var v := DecidedValue(now, req.agent, req.serial, req);
            var r1 := r.(pending := r.pending[r.nextSlot := Ticket(id, r.probeRound, v)],
                         log := r.log + [v],
                         nextSlot := r.nextSlot + 1,
                         followerAck := r.followerAck[r.index := r.nextSlot + 1]);
            SentMissing(r1, e.out) && Settles(r1, e.r)
  {
    var t := Ticket(id, r.probeRound, DecidedValue(now, req.agent, req.serial, req));
    var r1 := Append(r, t);
    AppendIs(r, t);
    Broadcasts(r1);
    LeaderSettles(r1);
    assert ClientPropose(r, id, req, now) == Effect(ApplyDecided(r1), SendPropose(r1));
  }

  lemma AppendIs(r: Replica, t: Ticket)
    requires Fit(r) && r.leader == r.index
    ensures var r1 := Append(r, t);
            && r1 == r.(pending := r.pending[r.nextSlot := t],
                        log := r.log + [t.value],
                        nextSlot := r.nextSlot + 1,
                        followerAck := r.followerAck[r.index := r.nextSlot + 1])
            && Leads(r1)
  {
  }

  // Anyone else refuses as busy, and nothing happens.
  lemma OthersRefuse(r: Replica, id: nat, req: Request, now: int)
    requires r.leader != r.index
    ensures ClientPropose(r, id, req, now) == Effect(r, [])
    ensures NotLeaderResponse(req) == CreateResp(req.serial, Busy, "")
  {
  }

  // ---- a new leader ----

  // The k-th response reports a log of the newest round, and the longest of those; the first such.
  predicate IsBest(ms: seq<Message>, k: nat)
    requires k < |ms|
  {
    && (forall j | 0 <= j < |ms| ::
          ms[j].ackRound < ms[k].ackRound
          || (ms[j].ackRound == ms[k].ackRound && ms[j].ackSlot <= ms[k].ackSlot))
    && (forall j | 0 <= j < k ::
          ms[j].ackRound < ms[k].ackRound
          || (ms[j].ackRound == ms[k].ackRound && ms[j].ackSlot < ms[k].ackSlot))
  }

  lemma PicksBest(ms: seq<Message>) returns (k: nat)
    requires |ms| > 0
    ensures k < |ms| && IsBest(ms, k) && BestOf(ms) == ms[k]
  {
    k := BestIsFirst(ms);
    forall j | 0 <= j < |ms| ensures !Weaker(ms[k], ms[j]) {
      assert ms[j] in ms;
    }
  }

  // What an elected replica starts from: the best response, with everyone else assumed to hold just
  // what is truncated of it, all of that decided and applied, and everyone else sent the rest.
  ghost predicate Started(r: Replica, best: Message, r': Replica) {
    && r'.leader == r'.index == r.index && r'.n == r.n
    && r'.ackRound == r'.probeRound == r.probeRound
    && r'.log == best.values && r'.logBase == best.slot && r'.nextSlot == End(r')
    && r'.decided == r'.applied == (if best.slot > r.decided then best.slot else r.decided)
    && |r'.followerAck| == r.n
    && (forall j | 0 <= j < r.n ::
          r'.followerAck[j] == if j == r.index then End(r') else best.slot)
    && r'.electionRound == r.electionRound && r'.responses == r.responses
  }

  lemma NewLeader(r: Replica) returns (k: nat)
    requires r.index < r.n == |r.followerAck| && r.n > 1 && |r.responses| > 0
    requires r.electionRound == r.probeRound && r.applied == r.decided
    requires forall j | 0 <= j < |r.responses| && IsBest(r.responses, j) ::
               && r.responses[j].ackSlot == r.responses[j].slot + |r.responses[j].values|
               && r.decided <= r.responses[j].ackSlot
    ensures k < |r.responses| && IsBest(r.responses, k)
    ensures var e := BecomeLeader(r);
            Started(r, r.responses[k], e.r) && SentMissing(e.r, e.out)
  {
    k := PicksBest(r.responses);
    var best := r.responses[k];
    var r1 := Adopt(CatchUp(r, best.slot), best);
    StartsFrom(r, best);
    BecomesIs(r, best, r1);
    StartedIsFit(r, best, r1);
    NothingToDo(r1);
    Broadcasts(r1);
  }

  lemma BecomesIs(r: Replica, best: Message, r1: Replica)
    requires |r.responses| > 0 && best == BestOf(r.responses)
    requires r1 == Adopt(CatchUp(r, best.slot), best)
    ensures BecomeLeader(r) == Effect(ApplyDecided(r1), SendPropose(r1))
  {
  }

  lemma StartedIsFit(r: Replica, best: Message, r1: Replica)
    requires Started(r, best, r1) && r.index < r.n && r.n > 1
    requires r.decided <= best.slot + |best.values|
    ensures UpToDate(r1)
    ensures forall j | 0 <= j < |r1.followerAck| :: r1.logBase <= r1.followerAck[j] <= End(r1)
    ensures exists j | 0 <= j < |r1.followerAck| :: r1.followerAck[j] <= r1.logBase
  {
    NothingAcked(r1, best.slot);
    var j := if r.index == 0 then 1 else 0;
    assert r1.followerAck[j] <= r1.logBase;
  }

  lemma StartsFrom(r: Replica, best: Message)
    requires r.index < r.n == |r.followerAck| && r.electionRound == r.probeRound
    requires r.applied == r.decided
    ensures Started(r, best, Adopt(CatchUp(r, best.slot), best))
  {
    LocalSteps.ApplyToFrame(r, best.slot, false);
    Waiting.CatchUpTurns(r, best.slot);
    assert Waiting.DeskOf(CatchUp(r, best.slot)).applied == Max(r.applied, best.slot);
  }

  // With nobody but the leader beyond its base, no majority is either.
  lemma NothingAcked(r: Replica, base: nat)
    requires r.index < |r.followerAck| && |r.followerAck| > 1 && base <= r.decided
    requires forall j | 0 <= j < |r.followerAck| && j != r.index :: r.followerAck[j] == base
    ensures forall m: nat :: 2 * |AtLeast(r.followerAck, m)| > |r.followerAck| ==> m <= r.decided
  {
    forall m: nat | m > r.decided ensures |AtLeast(r.followerAck, m)| <= 1 {
      SubsetCard(AtLeast(r.followerAck, m), {r.index});
    }
  }
}

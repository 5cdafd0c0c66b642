/** The class pt_paxos_replica: the source's fields, loops and branches, changed in place.
    Each method is proved to take the step ReplicaSpec gives it. Messages to send are returned. */
module PaxosReplica {
  import opened Common
  import opened TaskTypes
  import opened Quorums
  import opened ReplicaSpec
  import TM = TaskMachine
  import Wire
  import Store = TaskManagerDb

  // ---- what the loops need to know about the closed forms ----

  lemma TruncateOne(r: Replica, t: nat)
    requires r.logBase < t && |r.log| > 0
    ensures TruncateTo(r, t) == TruncateTo(r.(log := r.log[1..], logBase := r.logBase + 1), t)
  {
    DropTwice(r.log, Min(t, End(r)) - r.logBase);
  }

  lemma DropTwice(log: seq<DecidedValue>, k: nat)
    requires 0 < k <= |log|
    ensures log[1..][k - 1..] == log[k..]
    ensures k == 1 ==> log[1..] == log[k..]
  {
  }

  lemma WrittenNone(log: seq<DecidedValue>, base: nat, s: nat)
    requires s <= base + |log|
    ensures Written(log, base, s, []) == log
  {
    if s > base {
      assert log[..s - base] + [] + log[s - base..] == log;
    }
  }

  // The written log, position by position.
  predicate IsWritten(w: seq<DecidedValue>, log: seq<DecidedValue>, base: nat, s: nat,
                      values: seq<DecidedValue>)
    requires s <= base + |log|
  {
    && |w| == Max(|log|, s + |values| - base)
    && forall p | 0 <= p < |w| ::
         w[p] == if s <= p + base < s + |values| then values[p + base - s] else log[p]
  }

  lemma WrittenAt(log: seq<DecidedValue>, base: nat, s: nat, values: seq<DecidedValue>)
    requires s <= base + |log|
    ensures IsWritten(Written(log, base, s, values), log, base, s, values)
  {
  }

  // One turn of the writing loop: skip, overwrite or append.
  lemma WrittenOne(log: seq<DecidedValue>, base: nat, s: nat, values: seq<DecidedValue>, i: nat)
    requires s <= base + |log| && i < |values|
    ensures var w := Written(log, base, s, values[..i]);
            var w' := Written(log, base, s, values[..i + 1]);
            && |w| >= s + i - base
            && (s + i < base ==> w' == w)
            && (base <= s + i < base + |w| ==> w' == w[s + i - base := values[i]])
            && (s + i == base + |w| ==> w' == w + [values[i]])
  {
    WrittenAt(log, base, s, values[..i]);
    WrittenAt(log, base, s, values[..i + 1]);
    WriteOne(Written(log, base, s, values[..i]), Written(log, base, s, values[..i + 1]),
             log, base, s, values, i);
  }

  lemma WriteOne(w: seq<DecidedValue>, w': seq<DecidedValue>, log: seq<DecidedValue>, base: nat,
                 s: nat, values: seq<DecidedValue>, i: nat)
    requires s <= base + |log| && i < |values|
    requires IsWritten(w, log, base, s, values[..i]) && IsWritten(w', log, base, s, values[..i + 1])
    ensures |w| >= s + i - base
    ensures s + i < base ==> w' == w
    ensures base <= s + i < base + |w| ==> w' == w[s + i - base := values[i]]
    ensures s + i == base + |w| ==> w' == w + [values[i]]
  {
  }

  lemma CutOne(log: seq<DecidedValue>, base: nat, end: nat)
    requires base <= end < base + |log|
    ensures CutAt(log, base, end) == CutAt(log[..|log| - 1], base, end)
  {
    assert log[..|log| - 1][..end - base] == log[..end - base];
  }

  // Taking over a leader's values in three turns: reset on a gap, write, cut the tail.
  function ResetLog(r: Replica, s: nat): Replica {
    if s > End(r) then r.(log := [], logBase := s, applied := Max(r.applied, s)) else r
  }

  function WriteLog(r: Replica, s: nat, values: seq<DecidedValue>): Replica
    requires s <= End(r)
  {
    r.(log := Written(r.log, r.logBase, s, values))
  }

  function CutLog(r: Replica, end: nat): Replica {
    r.(log := CutAt(r.log, r.logBase, end))
  }

  function Following(r: Replica, m: Message): Replica {
    r.(leader := m.sender, ackRound := m.round)
  }

  function ReplaceLog(r: Replica, s: nat, values: seq<DecidedValue>, newRound: bool): Replica {
    var r1 := WriteLog(ResetLog(r, s), s, values);
    if newRound then CutLog(r1, s + |values|) else r1
  }

  lemma AcceptInTurns(r: Replica, m: Message)
    ensures AcceptLog(r, m)
            == ReplaceLog(Following(r, m), m.slot, m.values, m.round > r.ackRound)
  {
  }

  // Applying in three turns: run the request, tell the log and the client, move on.
  function Told(r: Replica, v: DecidedValue, resp: Response): Replica {
    var r1 := r.(logged := r.logged + Logged([v]));
    if r.applied in r.pending then
      r1.(pending := r.pending - {r.applied},
          replies := r.replies + [Reply(r.pending[r.applied], r.applied, resp, v.now, r.ackRound)])
    else r1
  }

  function Onward(r: Replica, v: DecidedValue): Replica {
    r.(applied := r.applied + 1, ran := r.ran + [v])
  }

  lemma ApplyInTurns(r: Replica, notify: bool)
    requires CanApply(r)
    ensures var v := r.log[r.applied - r.logBase];
            var (db, resp) := TM.Process(r.db, v.req, v.now);
            var r1 := r.(db := db);
            ApplyOne(r, notify) == Onward(if notify then Told(r1, v, resp) else r1, v)
  {
  }

  // Adopting in two turns: the log, then the acknowledgements.
  function WithLog(r: Replica, best: Message): Replica {
    r.(log := best.values, logBase := best.slot, nextSlot := best.slot + |best.values|,
       leader := r.index, ackRound := r.electionRound)
  }

  function WithAcks(r: Replica, base: nat, next: nat): Replica {
    var acks := seq(|r.followerAck|, _ => base);
    r.(followerAck := if r.index < |acks| then acks[r.index := next] else acks)
  }

  lemma AdoptInTurns(r: Replica, best: Message)
    ensures ReplicaSpec.Adopt(r, best)
            == WithAcks(WithLog(r, best), best.slot, best.slot + |best.values|)
  {
  }

  // What a follower does after taking the values over.
  function Learned(r: Replica, m: Message): Replica {
    var r1 := ReplicaSpec.ApplyDecided(r.(decided := Max(r.decided, m.decidedSlot)));
    TruncateTo(r1, Min(m.truncationSlot, r1.applied))
  }

  lemma ProposeInTurns(r: Replica, m: Message)
    requires !StalePropose(r, m)
    ensures var r1 := Learned(AcceptLog(r, m), m);
            HandlePropose(r, m) == Effect(r1, [Packet(m.sender, AckFor(r1))])
  {
  }

  class PtPaxosReplica {
    const index: nat
    const n: nat
    const db: Store.Db
    var leader: nat
    var log: seq<DecidedValue>
    var logBase: nat
    var nextSlot: nat
    var followerAck: seq<nat>
    var decided: nat
    var applied: nat
    var probeRound: nat
    var ackRound: nat
    var electionRound: nat
    var responses: seq<Message>
    var pending: map<nat, Ticket>
    var replies: seq<Reply>
    ghost var ran: seq<DecidedValue>
    var logged: seq<DecidedValue>  // the lines on_apply_ wrote

    ghost function Abs(): Replica
      reads this, db
    {
      Replica(index, n, leader, db.Abs(), log, logBase, nextSlot, followerAck, decided, applied,
              probeRound, ackRound, electionRound, responses, pending, replies, ran, logged)
    }

    // What indexing the acknowledgement vector takes for granted ...
    predicate Indexable()
      reads this, db
    {
      && index < n
      && |followerAck| == n
      && db.Indexed()
      && (leader == index ==> followerAck[index] <= logBase + |log| && nextSlot <= logBase + |log|)
    }

    // ... and indexing the deque from the applied slot on.
    predicate Valid()
      reads this, db
    {
      Indexable() && logBase <= applied
    }

    constructor (index: nat, n: nat)
      requires index < n
      ensures Valid() && Abs() == Start(index, n) && fresh(db)
      ensures this.index == index && this.n == n
      ensures leader == probeRound == ackRound == electionRound == 0
      ensures logBase == nextSlot == decided == applied == 0 && log == []
      ensures |followerAck| == n && forall j | 0 <= j < n :: followerAck[j] == 0
      ensures responses == [] && pending == map[] && replies == []
    {
      this.index, this.n := index, n;
      db := new Store.Db();
      leader, log, logBase, nextSlot := 0, [], 0, 0;
      followerAck := seq(n, _ => 0);
      decided, applied, probeRound, ackRound, electionRound := 0, 0, 0, 0, 0;
      responses, pending, replies := [], map[], [];
      ran, logged := [], [];
    }

    method TryDecide()
      requires Valid()
      modifies this`decided
      ensures Abs() == ReplicaSpec.TryDecide(old(Abs())) && Valid()
      ensures CommitPoint(followerAck) <= decided
    {
      var sortedAcks := Sort(followerAck);
      var newDecided := sortedAcks[n - Quorum(n)];
      decided := Max(decided, newDecided);
    }

    // Like the source, it relies on the log reaching as far as everyone has acknowledged.
    method TryTruncate()
      requires Indexable() && MinOf(followerAck) <= logBase + |log|
      modifies this`log, this`logBase
      ensures Abs() == ReplicaSpec.TryTruncate(old(Abs())) && Indexable()
      ensures logBase == Max(old(logBase), MinOf(followerAck))
    {
      var minAck := MinOf(followerAck);
      while logBase < minAck
        invariant Indexable() && old(logBase) <= logBase <= Max(old(logBase), minAck)
        invariant minAck <= logBase + |log|
        invariant TruncateTo(Abs(), minAck) == TruncateTo(old(Abs()), minAck)
      {
        TruncateOne(Abs(), minAck);
        log := log[1..];
        logBase := logBase + 1;
      }
    }

    // Run the next entry of the log on the database; with notify, log it and answer its client.
    method ApplyNext(notify: bool)
      requires Valid() && applied < logBase + |log|
      modifies this`applied, this`pending, this`replies, this`ran, this`logged, db
      ensures Abs() == ApplyOne(old(Abs()), notify) && Valid()
      ensures applied == old(applied) + 1
    {
      ApplyInTurns(Abs(), notify);
      var v := log[applied - logBase];
      var resp := Execute(v);
      if notify {
        Tell(v, resp);
      }
      applied := applied + 1;
      ran := ran + [v];
    }

    method Execute(v: DecidedValue) returns (resp: Response)
      requires Valid()
      modifies db
      ensures Abs() == old(Abs()).(db := TM.Process(old(db.Abs()), v.req, v.now).0) && Valid()
      ensures resp == TM.Process(old(db.Abs()), v.req, v.now).1
    {
      resp := db.ProcessReq(v.req, v.now);
    }

    // Write the log line, and wake the client waiting on the slot being applied.
    method Tell(v: DecidedValue, resp: Response)
      requires Valid()
      modifies this`logged, this`pending, this`replies
      ensures Abs() == Told(old(Abs()), v, resp) && Valid()
    {
      OnApply(v);
      if applied in pending {
        replies := replies + [Reply(pending[applied], applied, resp, v.now, ackRound)];
        pending := pending - {applied};
      }
    }

    // A line for the value, unless it only lists tasks.
    method OnApply(v: DecidedValue)
      modifies this`logged
      ensures logged == old(logged) + Logged([v])
    {
      var path := Wire.Path(v.req);
      LoggedOne(v);
      Wire.ListPath(v.req);
      if path != "/task_list" {
        logged := logged + [v];
      }
    }

    // Apply log entries in slot order below t.
    method ApplyBelow(t: nat, notify: bool)
      requires Valid()
      modifies this`applied, this`pending, this`replies, this`ran, this`logged, db
      ensures Abs() == ApplyTo(old(Abs()), t, notify) && Valid()
      ensures Min(t, logBase + |log|) <= applied && old(applied) <= applied
    {
      while applied < t && applied < logBase + |log|
        invariant Valid() && old(applied) <= applied
        invariant ApplyTo(Abs(), t, notify) == ApplyTo(old(Abs()), t, notify)
        decreases logBase + |log| - applied
      {
        ApplyNext(notify);
      }
    }

    method ApplyDecided()
      requires Valid()
      modifies this`decided, this`applied, this`pending, this`replies, this`ran, this`logged,
               this`log, this`logBase, db
      ensures Abs() == ReplicaSpec.ApplyDecided(old(Abs())) && Valid()
    {
      TryDecide();
      ApplyBelow(decided, true);
      if index == leader {
        TruncateApplied();
      }
    }

    // Everyone has acknowledged only what is decided, and so applied, and in our log.
    method TruncateApplied()
      requires Valid() && index == leader
      requires CommitPoint(followerAck) <= decided && Min(decided, logBase + |log|) <= applied
      modifies this`log, this`logBase
      ensures Abs() == ReplicaSpec.TryTruncate(old(Abs())) && Valid()
    {
      MinBelowCommitPoint(followerAck);
      assert followerAck[index] in followerAck;
      TryTruncate();
    }

    method SendPropose() returns (out: seq<Packet>)
      requires Valid()
      ensures out == ReplicaSpec.SendPropose(Abs())
    {
      out := [];
      for i := 0 to n
        invariant out == ProposeBelow(Abs(), i)
      {
        if i != index {
          var start := Clamp(followerAck[i], logBase, logBase + |log|);
          var m := Message(Propose, index, start, log[start - logBase..], 0, decided, probeRound, 0,
                           logBase);
          out := out + [Packet(i, m)];
        }
      }
    }

    // Pick a new round of our own and ask everyone else for a promise.
    method ProbeOthers() returns (out: seq<Packet>)
      requires Valid()
      modifies this`electionRound, this`probeRound, this`responses
      ensures Abs() == Candidate(old(Abs())) && Valid()
      ensures out == ProbeBelow(Abs(), n)
    {
      electionRound := probeRound + n - probeRound % n + index;
      probeRound := electionRound;
      responses := [];
      out := [];
      for i := 0 to n
        invariant out == ProbeBelow(Abs(), i)
      {
        if i != index {
          out := out + [Packet(i, Message(Probe, index, 0, [], 0, decided, electionRound, 0, 0))];
        }
      }
      ghost var asking := Abs();
      responses := responses + [Message(Prepare, index, logBase, log, logBase + |log|, decided,
                                        electionRound, ackRound, 0)];
      ProbesIgnoreResponses(asking, Abs(), n);
    }

    method StartElection() returns (out: seq<Packet>)
      requires Valid() && leader != index
      modifies this, db
      ensures Effect(Abs(), out) == ReplicaSpec.StartElection(old(Abs())) && Valid()
    {
      out := ProbeOthers();
      if |responses| >= Quorum(n) {
        var more := BecomeLeader();
        out := out + more;
      }
    }

    method CatchUp(t: nat)
      requires Valid()
      modifies this`decided, this`applied, this`pending, this`replies, this`ran, this`logged, db
      ensures Abs() == ReplicaSpec.CatchUp(old(Abs()), t) && Valid()
      ensures t <= applied
    {
      ApplyBelow(t, false);
      decided := Max(decided, t);
      applied := Max(applied, t);
    }

    method Adopt(best: Message)
      requires Valid() && best.slot <= applied
      modifies this`log, this`logBase, this`nextSlot, this`leader, this`ackRound, this`followerAck
      ensures Abs() == ReplicaSpec.Adopt(old(Abs()), best) && Valid()
      ensures leader == index
    {
      AdoptInTurns(Abs(), best);
      TakeLog(best);
      ResetAcks();
    }

    method TakeLog(best: Message)
      requires Valid()
      modifies this`log, this`logBase, this`nextSlot, this`leader, this`ackRound
      ensures Abs() == WithLog(old(Abs()), best)
      ensures logBase == best.slot && leader == index && nextSlot == logBase + |log|
    {
      log := best.values;
      logBase := best.slot;
      nextSlot := logBase + |log|;
      leader := index;
      ackRound := electionRound;
    }

    // Everyone else has acknowledged up to the base: the old leader truncated there.
    method ResetAcks()
      requires index < n && |followerAck| == n && db.Indexed() && logBase <= applied
      requires nextSlot == logBase + |log|
      modifies this`followerAck
      ensures Abs() == WithAcks(old(Abs()), logBase, nextSlot) && Valid()
    {
      var base := logBase;
      followerAck := seq(n, _ => base);
      followerAck := followerAck[index := nextSlot];
    }

    method BecomeLeader() returns (out: seq<Packet>)
      requires Valid() && |responses| > 0
      modifies this, db
      ensures Effect(Abs(), out) == ReplicaSpec.BecomeLeader(old(Abs())) && Valid()
    {
      var best := BestOf(responses);
      CatchUp(best.slot);
      Adopt(best);
      out := SendPropose();
      ApplyDecided();
    }

    // Follower: take the leader's values, learn its decided slot, truncate, acknowledge.
    method OnPropose(m: Message) returns (out: seq<Packet>)
      requires Valid() && m.sender != index && leader != index
      requires m.round > ackRound && m.slot <= logBase + |log| ==> logBase <= m.slot + |m.values|
      modifies this, db
      ensures Effect(Abs(), out) == HandlePropose(old(Abs()), m) && Valid()
    {
      var end := m.slot + |m.values|;
      if m.round == ackRound && end < logBase + |log| {
        leader := m.sender;
      } else {
        ProposeInTurns(Abs(), m);
        AcceptValues(m);
        LearnAndTruncate(m);
      }
      out := [Packet(m.sender, Message(Ack, index, 0, [], logBase + |log|, decided, probeRound, 0, 0))];
    }

    method LearnAndTruncate(m: Message)
      requires Valid() && leader != index
      modifies this`decided, this`applied, this`pending, this`replies, this`ran, this`logged,
               this`log, this`logBase, db
      ensures Abs() == Learned(old(Abs()), m) && Valid()
    {
      decided := Max(decided, m.decidedSlot);
      ApplyDecided();
      TruncateFollower(Min(m.truncationSlot, applied));
    }

    method ResetOnGap(slot: nat)
      requires Valid() && leader != index
      modifies this`log, this`logBase, this`applied
      ensures Abs() == ResetLog(old(Abs()), slot) && Valid()
    {
      if slot > logBase + |log| {
        log := [];
        logBase := slot;
        applied := Max(applied, slot);
      }
    }

    // Overwrite existing slots and append new ones, skipping what is already truncated.
    method WriteValues(s: nat, values: seq<DecidedValue>)
      requires Valid() && s <= logBase + |log| && leader != index
      modifies this`log
      ensures Abs() == WriteLog(old(Abs()), s, values) && Valid()
    {
      WrittenNone(log, logBase, s);
      assert values[..0] == [];
      for i := 0 to |values|
        invariant Valid() && log == Written(old(log), logBase, s, values[..i])
      {
        WrittenOne(old(log), logBase, s, values, i);
        if s + i >= logBase {
          var idx := s + i - logBase;
          if idx < |log| {
            log := log[idx := values[i]];
          } else if idx == |log| {
            log := log + [values[i]];
          }
        }
      }
      assert values[..|values|] == values;
    }

    method CutTail(end: nat)
      requires Valid() && logBase <= end && leader != index
      modifies this`log
      ensures Abs() == CutLog(old(Abs()), end) && Valid()
    {
      while logBase + |log| > end
        invariant Valid() && CutAt(log, logBase, end) == CutAt(old(log), logBase, end)
        decreases |log|
      {
        CutOne(log, logBase, end);
        log := log[..|log| - 1];
      }
    }

    method AcceptValues(m: Message)
      requires Valid() && m.sender != index && leader != index
      requires m.round > ackRound && m.slot <= logBase + |log| ==> logBase <= m.slot + |m.values|
      modifies this`leader, this`ackRound, this`log, this`logBase, this`applied
      ensures Abs() == AcceptLog(old(Abs()), m) && Valid()
      ensures leader == m.sender
    {
      AcceptInTurns(Abs(), m);
      var newRound := m.round > ackRound;
      Follow(m);
      ReplaceValues(m.slot, m.values, newRound);
    }

    method Follow(m: Message)
      requires Valid() && m.sender != index
      modifies this`leader, this`ackRound
      ensures Abs() == Following(old(Abs()), m) && Valid() && leader == m.sender
    {
      leader := m.sender;
      ackRound := m.round;
    }

    method ReplaceValues(s: nat, values: seq<DecidedValue>, newRound: bool)
      requires Valid() && leader != index
      requires newRound && s <= logBase + |log| ==> logBase <= s + |values|
      modifies this`log, this`logBase, this`applied
      ensures Abs() == ReplaceLog(old(Abs()), s, values, newRound) && Valid()
    {
      ResetOnGap(s);
      WriteValues(s, values);
      if newRound {
        CutTail(s + |values|);
      }
    }

    method TruncateFollower(t: nat)
      requires Valid() && t <= applied && leader != index
      modifies this`log, this`logBase
      ensures Abs() == TruncateTo(old(Abs()), t) && Valid()
    {
      while logBase < t && |log| > 0
        invariant Valid() && TruncateTo(Abs(), t) == TruncateTo(old(Abs()), t)
        decreases |log|
      {
        PopFront(t);
      }
    }

    method PopFront(ghost t: nat)
      requires Valid() && leader != index && logBase < t <= applied && |log| > 0
      modifies this`log, this`logBase
      ensures Valid() && TruncateTo(Abs(), t) == TruncateTo(old(Abs()), t)
      ensures |log| == |old(log)| - 1
    {
      TruncateOne(Abs(), t);
      log := log[1..];
      logBase := logBase + 1;
    }

    // A newer round ends our leadership and makes its owner the leader we know.
    method StepDownTo(m: Message)
      requires Valid() && m.sender != index
      modifies this`probeRound, this`leader
      ensures Abs() == StepDown(old(Abs()), m) && Valid()
    {
      if m.round > probeRound {
        probeRound := m.round;
        leader := m.sender;
      }
    }

    method OnPrepare(m: Message) returns (out: seq<Packet>)
      requires Valid()
      modifies this, db
      ensures Effect(Abs(), out) == HandlePrepare(old(Abs()), m) && Valid()
    {
      out := [];
      if m.round == electionRound && probeRound == electionRound {
        responses := responses + [m];
        if |responses| == Quorum(n) {
          out := BecomeLeader();
        }
      }
    }

    method OnLeaderMessage(m: Message)
      requires Valid() && index == leader && m.sender != index
      requires m.kind == Ack ==> m.sender < n
      modifies this, db
      ensures Abs() == ReplicaSpec.ApplyDecided(RecordAck(old(Abs()), m)) && Valid()
    {
      if m.kind == Ack && m.round == probeRound {
        followerAck := followerAck[m.sender := Max(followerAck[m.sender], m.ackSlot)];
      }
      ApplyDecided();
    }

    // One message, as run() handles it. Messages come from other replicas.
    method Receive(m: Message) returns (out: seq<Packet>)
      requires Valid() && Legal(Abs(), m)
      modifies this, db
      ensures Effect(Abs(), out) == ReplicaSpec.Receive(old(Abs()), m) && Valid()
    {
      StepDownTo(m);
      out := [];
      if m.round < probeRound {
      } else if m.kind == Probe {
        out := [Packet(m.sender, Message(Prepare, index, logBase, log, logBase + |log|, decided,
                                         m.round, ackRound, 0))];
      } else if m.kind == Prepare {
        out := OnPrepare(m);
      } else if index == leader {
        OnLeaderMessage(m);
      } else if m.kind == Propose {
        out := OnPropose(m);
      }
    }

    method Timeout(silent: bool) returns (out: seq<Packet>)
      requires Valid()
      modifies this, db
      ensures Effect(Abs(), out) == ReplicaSpec.Timeout(old(Abs()), silent) && Valid()
    {
      out := [];
      if index == leader {
        out := SendPropose();
        ApplyDecided();
      } else if silent {
        out := StartElection();
      }
    }

    // Register the waiting client under the next slot and append its value.
    method AppendValue(id: nat, v: DecidedValue)
      requires Valid() && leader == index
      modifies this`pending, this`log, this`nextSlot, this`followerAck
      ensures Abs() == Append(old(Abs()), Ticket(id, probeRound, v)) && Valid()
    {
      var mySlot := nextSlot;
      pending := pending[mySlot := Ticket(id, probeRound, v)];
      log := log + [v];
      nextSlot := nextSlot + 1;
      followerAck := followerAck[index := nextSlot];
    }

    // A client's request: refused unless we lead, otherwise appended and proposed.
    method ProposeAndApply(id: nat, req: Request, now: int) returns (out: seq<Packet>, refused: Option<Response>)
      requires Valid()
      modifies this, db
      ensures Effect(Abs(), out) == ClientPropose(old(Abs()), id, req, now) && Valid()
      ensures refused == if old(leader) == index then None else Some(NotLeaderResponse(req))
    {
      if index != leader {
        return [], Some(CreateResp(req.serial, Busy, ""));
      }
      AppendValue(id, DecidedValue(now, req.agent, req.serial, req));
      out := SendPropose();
      ApplyDecided();
      refused := None;
    }
  }

  // The PROBEs do not depend on the responses collected.
  lemma {:induction false} ProbesIgnoreResponses(r: Replica, r': Replica, k: nat)
    requires r' == r.(responses := r'.responses)
    ensures ProbeBelow(r, k) == ProbeBelow(r', k)
  {
    if k == 0 {
    } else {
      ProbesIgnoreResponses(r, r', k - 1);
    }
  }
}

/** The duties over whole runs: every replica of every run is fit for them, a replica takes office
    exactly when more than half have promised, and while it is in office it knows of every other
    replica the most that was acknowledged. */
module Terms {
  import opened Common
  import opened TaskTypes
  import opened Quorums
  import opened ReplicaSpec
  import opened Cluster
  import opened History
  import opened Duties
  import opened Agreement
  import Delivery
  import LocalSteps
  import Promptness
  import Safety
  import Waiting

  // ---- a leader has truncated exactly what everyone has ----

  predicate AllAbove(r: Replica) {
    forall j | 0 <= j < |r.followerAck| :: r.logBase <= r.followerAck[j]
  }

  predicate Bottom(r: Replica) {
    r.leader == r.index < |r.followerAck| ==>
      AllAbove(r) && exists j | 0 <= j < |r.followerAck| :: r.followerAck[j] == r.logBase
  }

  lemma SettledBottom(r: Replica)
    requires AllAbove(r) && exists j | 0 <= j < |r.followerAck| :: r.followerAck[j] <= End(r)
    ensures Bottom(ApplyDecided(r))
    ensures End(ApplyDecided(r)) == End(r)
    ensures ApplyDecided(r).leader == r.leader && ApplyDecided(r).index == r.index
  {
    var r1 := TryDecide(r);
    LocalSteps.ApplyToFrame(r1, r1.decided, true);
    Truncating(ApplyTo(r1, r1.decided, true));
  }

  lemma LeaderBottom(r: Replica)
    requires r.index < |r.followerAck| && |r.responses| > 0
    ensures Bottom(BecomeLeader(r).r)
    ensures BecomeLeader(r).r.leader == BecomeLeader(r).r.index == r.index
    ensures var best := BestOf(r.responses);
            End(BecomeLeader(r).r) == best.slot + |best.values|
  {
    var best := BestOf(r.responses);
    var r0 := CatchUp(r, best.slot);
    LocalSteps.ApplyToFrame(r, best.slot, false);
    AdoptAbove(r0, best);
    SettledBottom(Adopt(r0, best));
  }

  lemma AdoptAbove(r: Replica, best: Message)
    requires r.index < |r.followerAck|
    ensures var r1 := Adopt(r, best);
            AllAbove(r1) && exists j | 0 <= j < |r1.followerAck| :: r1.followerAck[j] <= End(r1)
  {
    assert Adopt(r, best).followerAck[r.index] <= End(Adopt(r, best));
  }

  lemma HearsBottom(r: Replica, m: Message)
    requires Fit(r) && r.leader == r.index && m.sender != r.index
    ensures Bottom(ApplyDecided(RecordAck(r, m)))
  {
    var r1 := RecordAck(r, m);
    assert r1.followerAck[r.index] <= End(r1);
    SettledBottom(r1);
  }

  lemma PrepareBottom(r: Replica, m: Message)
    requires Fit(r) && m.kind == Prepare && r.probeRound <= m.round && m.sender != r.index
    ensures Bottom(Receive(r, m).r)
  {
    Collects(r, m);
    if m.round == r.electionRound {
      SameBottom(r, r.(responses := r.responses + [m]));
      LeaderBottom(r.(responses := r.responses + [m]));
    } else {
      SameBottom(r, Joined(r, m));
    }
  }

  lemma SameBottom(r: Replica, r1: Replica)
    requires Fit(r) && r1.index == r.index && (r1.leader == r1.index ==> r.leader == r.index)
    requires r1.followerAck == r.followerAck && r1.logBase == r.logBase
    ensures Bottom(r1)
  {
  }

  lemma ProposeIs(r: Replica, m: Message)
    requires m.kind == Propose && r.probeRound <= m.round && Joined(r, m).leader != r.index
    ensures Receive(r, m) == HandlePropose(Joined(r, m), m)
  {
    assert StepDown(r, m) == Joined(r, m);
  }

  lemma FollowsBottom(r: Replica, m: Message, e: Effect)
    requires e == HandlePropose(r, m) && m.slot <= End(r) && m.sender != r.index
    ensures e.r.index == r.index ==> Bottom(e.r)
  {
    Waiting.ProposeServes(r, m);
  }

  lemma ReceiveBottom(r: Replica, m: Message)
    requires Fit(r) && m.sender != r.index
    requires m.kind == Propose && r.probeRound <= m.round ==> m.slot <= End(r)
    ensures Receive(r, m).r.index == r.index ==> Bottom(Receive(r, m).r)
  {
    if m.round < r.probeRound {
      IgnoresOld(r, m);
      SameBottom(r, r);
    } else if m.kind == Prepare {
      PrepareBottom(r, m);
    } else if m.kind == Probe {
      Promises(r, m);
      SameBottom(r, Joined(r, m));
    } else if Joined(r, m).leader == r.index {
      HearsBottom(r, m);
      HearsAny(r, m);
    } else if m.kind == Propose {
      ProposeIs(r, m);
      FollowsBottom(Joined(r, m), m, Receive(r, m));
    } else {
      IgnoresAck(r, m);
      SameBottom(r, Joined(r, m));
    }
  }

  lemma HearsAny(r: Replica, m: Message)
    requires r.probeRound <= m.round && (m.kind == Ack || m.kind == Propose)
    requires Joined(r, m).leader == r.index && m.sender != r.index
    ensures r.leader == r.index && m.round == r.probeRound
    ensures Receive(r, m) == Effect(ApplyDecided(RecordAck(r, m)), [])
  {
  }

  lemma ClientBottom(r: Replica, id: nat, req: Request, now: int)
    requires Fit(r)
    ensures Bottom(ClientPropose(r, id, req, now).r)
  {
    if r.leader == r.index {
      var t := Ticket(id, r.probeRound, ValueOf(req, now));
      AppendIs(r, t);
      var r1 := Append(r, t);
      assert r1.followerAck[r.index] <= End(r1);
      SettledBottom(r1);
    }
  }

  lemma TimeoutBottom(r: Replica, silent: bool)
    requires Fit(r) && (r.n > 1 || r.leader == r.index)
    ensures Bottom(Timeout(r, silent).r)
  {
    if r.leader == r.index {
      LeaderResends(r, silent);
    } else if silent {
      FollowerStands(r);
    }
  }

  // ---- every replica is fit ----

  lemma FitIs(n: nat, i: nat, r: Replica, h: History)
    requires RepOk(n, i, r, h) && n > 0 && TryDecide(r) == r && r.applied == r.decided && Bottom(r)
    ensures Fit(r)
  {
    forall m: nat | 2 * |AtLeast(r.followerAck, m)| > |r.followerAck| ensures m <= r.decided {
      CommitPointIsMajority(r.followerAck, m);
    }
  }

  // What an action makes of replica i.
  function After(s: Sys, a: Action, i: nat): Replica
    requires i < |s.rs| && s.rs[i].n > 0
  {
    match a
    case Deliver(k) =>
      if InFlight(s, k) && s.packets[k].dst == i then Receive(s.rs[i], s.packets[k].msg).r else s.rs[i]
    case Lose(_) => s.rs[i]
    case Tick(x, silent) => if x == i then Timeout(s.rs[i], silent).r else s.rs[i]
    case Client(x, id, req, now) => if x == i then ClientPropose(s.rs[i], id, req, now).r else s.rs[i]
  }

  lemma AfterIs(n: nat, acts: seq<Action>, a: Action, i: nat)
    requires i < n
    ensures |Run(n, acts).rs| == n && Run(n, acts).rs[i].n == n
    ensures ReplicaAt(n, acts + [a], i) == After(Run(n, acts), a, i)
  {
    RunSize(n, acts);
    Waiting.Shaped(n, acts, i);
    assert Front(acts + [a]) == acts;
  }

  lemma Delivered(n: nat, acts: seq<Action>, k: nat, i: nat)
    requires i < n && InFlight(Run(n, acts), k) && Run(n, acts).packets[k].dst == i
    ensures var m := Run(n, acts).packets[k].msg;
            var r := ReplicaAt(n, acts, i);
            && m.sender != r.index
            && (m.kind == Propose && r.probeRound <= m.round ==> m.slot <= End(r))
  {
    DeliveriesAreLegal(n, acts, k);
    if Run(n, acts).packets[k].msg.kind == Propose {
      NoGap(n, acts, k);
    }
  }

  lemma StepBottom(n: nat, acts: seq<Action>, a: Action, i: nat)
    requires i < n && Fit(ReplicaAt(n, acts, i))
    requires ReplicaAt(n, acts + [a], i).index == i
    ensures Bottom(ReplicaAt(n, acts + [a], i))
  {
    var s := Run(n, acts);
    var r := ReplicaAt(n, acts, i);
    AfterIs(n, acts, a, i);
    Waiting.Shaped(n, acts, i);
    if a.Deliver? && InFlight(s, a.k) && s.packets[a.k].dst == i {
      Delivered(n, acts, a.k, i);
      ReceiveBottom(r, s.packets[a.k].msg);
    } else if a.Tick? && a.i == i {
      TimeoutBottom(r, a.silent);
    } else if a.Client? && a.i == i {
      ClientBottom(r, a.id, a.req, a.now);
    } else {
      SameBottom(r, After(s, a, i));
    }
  }

  // Every replica of every run is in a state Duties speaks of.
  lemma {:induction false} AlwaysFit(n: nat, acts: seq<Action>, i: nat)
    requires i < n
    ensures Fit(ReplicaAt(n, acts, i))
    decreases |acts|
  {
    if |acts| == 0 {
      StartBottom(n, i);
    } else {
      var before, a := Front(acts), Last(acts);
      assert acts == before + [a];
      AlwaysFit(n, before, i);
      Waiting.Shaped(n, acts, i);
      StepBottom(n, before, a, i);
    }
    BottomFit(n, acts, i);
  }

  lemma BottomFit(n: nat, acts: seq<Action>, i: nat)
    requires i < n && Bottom(ReplicaAt(n, acts, i))
    ensures Fit(ReplicaAt(n, acts, i))
  {
    var h := RepAlone(n, acts, i);
    StaleAcksHarmless(n, acts, i);
    Promptness.NothingLeftUnapplied(n, acts, i);
    FitIs(n, i, ReplicaAt(n, acts, i), h);
  }

  lemma StartBottom(n: nat, i: nat)
    requires i < n
    ensures Bottom(Start(i, n))
  {
    assert Start(i, n).followerAck[i] == 0;
  }

  // ---- taking office ----

  // The action brings the replica a PREPARE of the round it stands in, and the responses it has then
  // first exceed half of the replicas.
  predicate Elects(s: Sys, a: Action, r: Replica) {
    && a.Deliver? && a.k < |s.packets| && a.k !in s.spent && s.packets[a.k].dst == r.index
    && var m := s.packets[a.k].msg;
       && m.kind == Prepare
       && m.round == r.probeRound == r.electionRound
       && 2 * |r.responses| <= r.n < 2 * (|r.responses| + 1)
  }

  lemma ElectsIs(s: Sys, a: Action, i: nat)
    requires i < |s.rs| && Fit(s.rs[i]) && s.rs[i].index == i
    ensures Waiting.MakesLeader(s, a, i) <==> Elects(s, a, s.rs[i])
  {
    QuorumIs(s.rs[i].n, |s.rs[i].responses|);
    QuorumIs(s.rs[i].n, |s.rs[i].responses| + 1);
  }

  // The replica with all the responses it is elected on.
  function Elected(s: Sys, a: Action, r: Replica): Replica
    requires Elects(s, a, r)
  {
    r.(responses := r.responses + [s.packets[a.k].msg])
  }

  lemma ElectedIs(s: Sys, a: Action, r: Replica)
    requires Fit(r) && Elects(s, a, r)
    ensures Receive(r, s.packets[a.k].msg) == BecomeLeader(Elected(s, a, r))
  {
    Collects(r, s.packets[a.k].msg);
  }

  // A replica that does not lead takes office in exactly those steps.
  lemma ElectedExactly(n: nat, acts: seq<Action>, a: Action, i: nat)
    requires i < n && ReplicaAt(n, acts, i).leader != i
    ensures ReplicaAt(n, acts + [a], i).leader == i
            <==> Elects(Run(n, acts), a, ReplicaAt(n, acts, i))
  {
    var s := Run(n, acts);
    var r := ReplicaAt(n, acts, i);
    AlwaysFit(n, acts, i);
    RunSize(n, acts);
    Waiting.Shaped(n, acts, i);
    ElectsIs(s, a, i);
    if Elects(s, a, r) {
      AfterIs(n, acts, a, i);
      ElectedIs(s, a, r);
      LeaderBottom(Elected(s, a, r));
    } else {
      Waiting.StepServes(n, acts, a, i);
    }
  }

  lemma OneBest(ms: seq<Message>, j: nat, k: nat)
    requires j < |ms| && k < |ms| && IsBest(ms, j) && IsBest(ms, k)
    ensures j == k
  {
    assert ms[j] == ms[k] || ms[j].ackRound == ms[k].ackRound;
  }

  // A report ends where the log it carries does.
  lemma ReportsAre(n: nat, acts: seq<Action>, i: nat, a: Action, j: nat)
    requires i < n && Elects(Run(n, acts), a, ReplicaAt(n, acts, i))
    requires j < |Elected(Run(n, acts), a, ReplicaAt(n, acts, i)).responses|
    ensures var m := Elected(Run(n, acts), a, ReplicaAt(n, acts, i)).responses[j];
            m.ackSlot == m.slot + |m.values|
  {
    var s := Run(n, acts);
    var h := ReplicaOk(n, acts, i);
    assert ResponsesOk(n, s.rs, h, i);
    assert s.packets[a.k] in s.packets && PacketOk(n, s.rs, h, s.packets[a.k]);
    var r := s.rs[i];
    if j < |r.responses| {
      assert r.responses[j] in r.responses;
    }
  }

  // What it starts from is the best of the responses, and everyone else is sent the log it then has.
  lemma TakesOffice(n: nat, acts: seq<Action>, a: Action, i: nat) returns (k: nat, out: seq<Packet>)
    requires i < n && ReplicaAt(n, acts, i).leader != i
    requires ReplicaAt(n, acts + [a], i).leader == i
    ensures Elects(Run(n, acts), a, ReplicaAt(n, acts, i))
    ensures var r := Elected(Run(n, acts), a, ReplicaAt(n, acts, i));
            var r' := ReplicaAt(n, acts + [a], i);
            && k < |r.responses| && IsBest(r.responses, k)
            && Started(r, r.responses[k], r')
            && Run(n, acts + [a]).packets == Run(n, acts).packets + out
            && r'.index < r'.n == |r'.followerAck| && SentMissing(r', out)
  {
    var s := Run(n, acts);
    var r0 := ReplicaAt(n, acts, i);
    ElectedExactly(n, acts, a, i);
    AlwaysFit(n, acts, i);
    AlwaysFit(n, acts + [a], i);
    AfterIs(n, acts, a, i);
    Waiting.Shaped(n, acts, i);
    Waiting.Shaped(n, acts + [a], i);
    var r := Elected(s, a, r0);
    ElectedIs(s, a, r0);
    CursorsOrdered(n, acts, a, i);
    CursorsOrdered(n, acts + [a], a, i);
    LeaderBottom(r);
    var b := PicksBest(r.responses);
    forall j | 0 <= j < |r.responses| && IsBest(r.responses, j)
      ensures r.responses[j].ackSlot == r.responses[j].slot + |r.responses[j].values|
      ensures r.decided <= r.responses[j].ackSlot {
      OneBest(r.responses, j, b);
      ReportsAre(n, acts, i, a, j);
    }
    k := NewLeader(r);
    out := BecomeLeader(r).out;
    assert Front(acts + [a]) == acts;
  }

  // ---- leaving office ----

  lemma HearsNewer(r: Replica, m: Message)
    requires Fit(r) && m.round > r.probeRound && m.sender != r.index
    requires m.kind == Propose ==> m.slot <= End(r)
    ensures Receive(r, m).r.leader == m.sender
  {
    if m.kind == Probe {
      Promises(r, m);
    } else if m.kind == Prepare {
      Collects(r, m);
    } else if m.kind == Ack {
      IgnoresAck(r, m);
    } else {
      ProposeIs(r, m);
      Waiting.ProposeServes(Joined(r, m), m);
    }
  }

  // The action brings the replica a message of a newer round.
  predicate Deposes(s: Sys, a: Action, r: Replica) {
    && a.Deliver? && a.k < |s.packets| && a.k !in s.spent && s.packets[a.k].dst == r.index
    && s.packets[a.k].msg.round > r.probeRound
  }

  // The action brings the replica j's acknowledgement of its round.
  predicate HearsAck(s: Sys, a: Action, r: Replica, j: nat) {
    && a.Deliver? && a.k < |s.packets| && a.k !in s.spent && s.packets[a.k].dst == r.index
    && var m := s.packets[a.k].msg;
       m.kind == Ack && m.round == r.probeRound && m.sender == j
  }

  // What a leader knows of the others after an action that leaves it in office.
  predicate Keeps(s: Sys, a: Action, r: Replica, r': Replica) {
    && r'.leader == r.leader && r'.probeRound == r.probeRound
    && |r'.followerAck| == |r.followerAck|
    && (forall j | 0 <= j < |r.followerAck| :: r.followerAck[j] <= r'.followerAck[j])
    && (forall j | 0 <= j < |r.followerAck| && j != r.index ::
          r'.followerAck[j] == if HearsAck(s, a, r, j) && s.packets[a.k].msg.ackSlot > r.followerAck[j]
                               then s.packets[a.k].msg.ackSlot else r.followerAck[j])
  }

  lemma IdleKeeps(s: Sys, a: Action, r: Replica, r': Replica)
    requires r'.leader == r.leader && r'.probeRound == r.probeRound && r'.followerAck == r.followerAck
    requires forall j | 0 <= j < |r.followerAck| && j != r.index :: !HearsAck(s, a, r, j)
    ensures Keeps(s, a, r, r')
  {
  }

  lemma AckKeeps(s: Sys, a: Action, r: Replica)
    requires Fit(r) && r.leader == r.index && a.Deliver?
    requires a.k < |s.packets| && a.k !in s.spent && s.packets[a.k].dst == r.index
    requires var m := s.packets[a.k].msg;
             && m.kind == Ack && m.round == r.probeRound && m.ackSlot <= End(r)
             && m.sender < r.n && m.sender != r.index
    ensures Keeps(s, a, r, Receive(r, s.packets[a.k].msg).r)
  {
    var m := s.packets[a.k].msg;
    LeaderHears(r, m);
    HeardKeeps(s, a, r, m, Receive(r, m).r);
  }

  lemma HeardKeeps(s: Sys, a: Action, r: Replica, m: Message, r': Replica)
    requires forall j | 0 <= j < |r.followerAck| :: HearsAck(s, a, r, j) <==> m.sender == j
    requires a.Deliver? && a.k < |s.packets| && s.packets[a.k].msg == m
    requires m.sender < |r.followerAck| == |r'.followerAck| && m.sender != r.index
    requires r'.leader == r.leader && r'.probeRound == r.probeRound
    requires r'.followerAck[m.sender]
             == (if m.ackSlot > r.followerAck[m.sender] then m.ackSlot else r.followerAck[m.sender])
    requires forall j | 0 <= j < |r.followerAck| && j != m.sender :: r'.followerAck[j] == r.followerAck[j]
    ensures Keeps(s, a, r, r')
  {
  }

  lemma DeliveryKeeps(s: Sys, a: Action, r: Replica)
    requires Fit(r) && r.leader == r.index && a.Deliver? && !Elects(s, a, r) && !Deposes(s, a, r)
    requires a.k < |s.packets| && a.k !in s.spent && s.packets[a.k].dst == r.index
    requires var m := s.packets[a.k].msg;
             && m.sender < r.n && m.sender != r.index
             && (m.kind == Ack && m.round == r.probeRound ==> m.ackSlot <= End(r))
    ensures Keeps(s, a, r, Receive(r, s.packets[a.k].msg).r)
  {
    var m := s.packets[a.k].msg;
    if m.round < r.probeRound {
      IgnoresOld(r, m);
      IdleKeeps(s, a, r, r);
    } else if m.kind == Probe {
      Promises(r, m);
      IdleKeeps(s, a, r, Joined(r, m));
    } else if m.kind == Prepare {
      Collects(r, m);
      IdleKeeps(s, a, r, Receive(r, m).r);
    } else if m.kind == Ack {
      AckKeeps(s, a, r);
    } else {
      HearsAny(r, m);
      NothingToDo(r);
      IdleKeeps(s, a, r, r);
    }
  }

  lemma ClientKeeps(s: Sys, a: Action, r: Replica)
    requires Fit(r) && r.leader == r.index && a.Client?
    ensures Keeps(s, a, r, ClientPropose(r, a.id, a.req, a.now).r)
  {
    var r1 := Append(r, Ticket(a.id, r.probeRound, ValueOf(a.req, a.now)));
    AppendIs(r, Ticket(a.id, r.probeRound, ValueOf(a.req, a.now)));
    LeaderSettles(r1);
    ClientIs(r, a, r1);
    AppendedKeeps(s, a, r, r1, ApplyDecided(r1));
  }

  lemma ClientIs(r: Replica, a: Action, r1: Replica)
    requires a.Client? && r.leader == r.index
    requires r1 == Append(r, Ticket(a.id, r.probeRound, ValueOf(a.req, a.now)))
    ensures ClientPropose(r, a.id, a.req, a.now).r == ApplyDecided(r1)
  {
  }

  lemma AppendedKeeps(s: Sys, a: Action, r: Replica, r1: Replica, r': Replica)
    requires a.Client? && r.index < |r.followerAck| && r.followerAck[r.index] == r.nextSlot
    requires r1.followerAck == r.followerAck[r.index := r.nextSlot + 1]
    requires r1.leader == r.leader && r1.probeRound == r.probeRound
    requires SameOffice(r1, r')
    ensures Keeps(s, a, r, r')
  {
  }

  // Nothing is acknowledged to a leader beyond its own log.
  lemma AckFits(n: nat, acts: seq<Action>, k: nat, i: nat)
    requires i < n && InFlight(Run(n, acts), k) && Run(n, acts).packets[k].dst == i
    requires var m := Run(n, acts).packets[k].msg;
             m.kind == Ack && m.round == ReplicaAt(n, acts, i).probeRound
    requires ReplicaAt(n, acts, i).leader == i
    ensures Run(n, acts).packets[k].msg.ackSlot <= End(ReplicaAt(n, acts, i))
  {
    var h := ReplicaOk(n, acts, i);
    var s := Run(n, acts);
    assert s.packets[k] in s.packets && PacketOk(n, s.rs, h, s.packets[k]);
  }

  lemma DeliveredKeeps(n: nat, acts: seq<Action>, k: nat, i: nat)
    requires i < n && InFlight(Run(n, acts), k) && Run(n, acts).packets[k].dst == i
    requires ReplicaAt(n, acts, i).leader == i
    requires !Deposes(Run(n, acts), Deliver(k), ReplicaAt(n, acts, i))
    ensures var r := ReplicaAt(n, acts, i);
            Keeps(Run(n, acts), Deliver(k), r, Receive(r, Run(n, acts).packets[k].msg).r)
  {
    var s := Run(n, acts);
    var r := ReplicaAt(n, acts, i);
    RunSize(n, acts);
    AlwaysFit(n, acts, i);
    Waiting.Shaped(n, acts, i);
    DeliveriesAreLegal(n, acts, k);
    ElectsIs(s, Deliver(k), i);
    if Elects(s, Deliver(k), r) {
      Waiting.NoneWaitsYet(n, acts, Deliver(k), i);
    }
    if s.packets[k].msg.kind == Ack && s.packets[k].msg.round == r.probeRound {
      AckFits(n, acts, k, i);
    }
    DeliveryKeeps(s, Deliver(k), r);
  }

  // A leader leaves office in exactly the steps that bring it news of a newer round. As long as it
  // stays it is in the same round, and what it knows of another replica is the larger of what it
  // knew and what it hears.
  lemma DeposedExactly(n: nat, acts: seq<Action>, a: Action, i: nat)
    requires i < n && ReplicaAt(n, acts, i).leader == i
    ensures ReplicaAt(n, acts + [a], i).leader != i
            <==> Deposes(Run(n, acts), a, ReplicaAt(n, acts, i))
    ensures ReplicaAt(n, acts + [a], i).leader == i ==>
              Keeps(Run(n, acts), a, ReplicaAt(n, acts, i), ReplicaAt(n, acts + [a], i))
  {
    var s := Run(n, acts);
    var r := ReplicaAt(n, acts, i);
    AlwaysFit(n, acts, i);
    AfterIs(n, acts, a, i);
    Waiting.Shaped(n, acts, i);
    if Deposes(s, a, r) {
      Delivered(n, acts, a.k, i);
      HearsNewer(r, s.packets[a.k].msg);
    } else if a.Deliver? && InFlight(s, a.k) && s.packets[a.k].dst == i {
      DeliveredKeeps(n, acts, a.k, i);
    } else if a.Tick? && a.i == i {
      LeaderResends(r, a.silent);
      IdleKeeps(s, a, r, r);
    } else if a.Client? && a.i == i {
      ClientKeeps(s, a, r);
    } else {
      IdleKeeps(s, a, r, r);
    }
  }

  // ---- what a leader knows of the others ----

  // Where i's present term found j, and everything j has acknowledged to it since.
  function Heard(n: nat, acts: seq<Action>, i: nat, j: nat): set<nat>
    requires i < n
  {
    if |acts| == 0 then {0}
    else
      var s := Run(n, Front(acts));
      var r := ReplicaAt(n, Front(acts), i);
      var r' := ReplicaAt(n, acts, i);
      if r.leader != i && r'.leader == i then {r'.logBase}
      else if HearsAck(s, Last(acts), r, j) then
        Heard(n, Front(acts), i, j) + {s.packets[Last(acts).k].msg.ackSlot}
      else Heard(n, Front(acts), i, j)
  }

  // A leader knows of every other replica the most of what its term found there and what it has
  // heard since.
  lemma {:induction false} KnowsTheMost(n: nat, acts: seq<Action>, i: nat, j: nat)
    requires i < n && j < n && j != i && ReplicaAt(n, acts, i).leader == i
    ensures |ReplicaAt(n, acts, i).followerAck| == n
    ensures ReplicaAt(n, acts, i).followerAck[j] in Heard(n, acts, i, j)
    ensures forall x | x in Heard(n, acts, i, j) :: x <= ReplicaAt(n, acts, i).followerAck[j]
    decreases |acts|
  {
    AlwaysFit(n, acts, i);
    Waiting.Shaped(n, acts, i);
    if |acts| == 0 {
    } else {
      var fs := Front(acts);
      assert acts == fs + [Last(acts)];
      if ReplicaAt(n, fs, i).leader == i {
        KnowsTheMost(n, fs, i, j);
        Waiting.Shaped(n, fs, i);
        DeposedExactly(n, fs, Last(acts), i);
      } else {
        var k, out := TakesOffice(n, fs, Last(acts), i);
      }
    }
  }

  // ---- following a leader ----

  // No replica is sent a PROPOSE of a round it leads, and none claims more decided than it carries.
  lemma ProposalFits(n: nat, acts: seq<Action>, k: nat, i: nat)
    requires i < n && InFlight(Run(n, acts), k) && Run(n, acts).packets[k].dst == i
    requires Run(n, acts).packets[k].msg.kind == Propose
    ensures var m := Run(n, acts).packets[k].msg;
            var r := ReplicaAt(n, acts, i);
            && m.decidedSlot <= m.slot + |m.values|
            && (r.leader == i ==> m.round != r.probeRound)
  {
    var h := ReplicaOk(n, acts, i);
    var s := Run(n, acts);
    assert s.packets[k] in s.packets && PacketOk(n, s.rs, h, s.packets[k]);
  }

  // A PROPOSE no older than the replica's round makes it follow the sender: it takes the log over and
  // acknowledges it, unless the message is of the round it already follows and shorter than its log.
  lemma FollowsItsLeader(n: nat, acts: seq<Action>, k: nat, i: nat)
    requires i < n && InFlight(Run(n, acts), k) && Run(n, acts).packets[k].dst == i
    requires Run(n, acts).packets[k].msg.kind == Propose
    requires ReplicaAt(n, acts, i).probeRound <= Run(n, acts).packets[k].msg.round
    ensures var m := Run(n, acts).packets[k].msg;
            var r := ReplicaAt(n, acts, i);
            var e := Receive(r, m);
            && m.slot <= End(r)
            && if m.round == r.ackRound && m.slot + |m.values| < End(r) then
                 e.r == r.(leader := m.sender) && e.out == [Packet(m.sender, AckOf(r))]
               else Taken(r, m, e.r) && e.out == [Packet(m.sender, AckOf(e.r))]
  {
    var m := Run(n, acts).packets[k].msg;
    var r := ReplicaAt(n, acts, i);
    AlwaysFit(n, acts, i);
    Waiting.Shaped(n, acts, i);
    Delivered(n, acts, k, i);
    ProposalFits(n, acts, k, i);
    NoGap(n, acts, k);
    if m.round == r.ackRound && m.slot + |m.values| < End(r) {
      TakesNothing(r, m);
    } else {
      FollowerTakes(r, m);
    }
  }
}

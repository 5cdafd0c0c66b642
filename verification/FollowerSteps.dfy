/** What a follower does: step down, take over the leader's log, acknowledge. */
module FollowerSteps {
  import opened Common
  import opened TaskTypes
  import opened Quorums
  import opened ReplicaSpec
  import opened History
  import opened Evolution
  import opened LocalSteps
  import opened GlobalSteps
  import opened LeaderSteps

  // A prefix decided by one round is in the log of every later round, from its adoption on.
  lemma LaterRoundAgrees(n: nat, h: History, r: nat, q: nat, d: nat)
    requires RoundsOk(n, h) && r in h.rounds && q in h.rounds && r <= q
    requires DecidedBy(n, h, r, d)
    ensures DecidedBy(n, h, q, d)
    ensures d <= |h.rounds[r].log| && d <= |h.rounds[q].log|
    ensures r < q ==> d <= h.rounds[q].adopt
    ensures h.rounds[q].log[..d] == h.rounds[r].log[..d]
  {
    var q0 := DecidedPrefix(n, h, r, d);
    if r < q {
      LeaderCompleteness(n, h, q0, q, d);
    }
  }

  // ---- stepping down ----

  lemma StepDownMove(n: nat, i: nat, rs: seq<Replica>, h: History, rs': seq<Replica>,
                     ps: seq<Packet>, m: Message)
    requires AllOk(n, rs, h, ps) && i < n && m.sender < n && m.sender != i
    requires |rs'| == n && rs' == rs[i := StepDown(rs[i], m)]
    ensures AllOk(n, rs', h, ps)
  {
    assert RepOk(n, i, rs[i], h);
    if m.round > rs[i].probeRound {
      LocalMove(n, i, rs, h, rs', ps);
    } else {
      assert rs' == rs;
    }
  }

  // ---- accepting a PROPOSE ----

  // No gap, and a new round's log does not end inside what was truncated.
  lemma ProposeFits(n: nat, rs: seq<Replica>, h: History, i: nat, m: Message)
    requires n > 0 && |rs| == n && RoundsOk(n, h) && RepsOk(n, rs, h) && i < n
    requires ProposeOk(n, h, i, m) && rs[i].probeRound <= m.round
    ensures rs[i].ackRound <= m.round
    ensures m.slot <= End(rs[i])
    ensures rs[i].ackRound < m.round ==>
              m.slot <= h.base && rs[i].decided <= m.slot + |m.values| && h.base <= m.slot + |m.values|
    ensures rs[i].logBase <= h.base
  {
    BaseHeld(n, rs, h, i);
    var r := rs[i];
    assert RepOk(n, i, r, h);
    if r.ackRound < m.round {
      assert Acc(h.acc, i, m.round) == 0;
      LaterRoundAgrees(n, h, r.ackRound, m.round, r.decided);
      LaterRoundAgrees(n, h, r.ackRound, m.round, h.base);
    }
  }

  function Accepting(h: History, i: nat, q: nat, end: nat): History
    requires i < |h.acc|
  {
    var reach: map<nat, nat> := h.acc[i][q := end];
    h.(acc := h.acc[i := reach])
  }

  lemma AcceptGrows(n: nat, i: nat, r: Replica, h: History, m: Message)
    requires n > 0 && i < |h.acc| && LogOk(n, i, r, h) && r.ackRound <= r.probeRound <= m.round
    requires m.round == r.ackRound ==> End(r) <= m.slot + |m.values|
    ensures Grows(n, i, r.probeRound, h, Accepting(h, i, m.round, m.slot + |m.values|))
  {
  }

  // Writing values that belong to a target log t over a log that agrees with t below them.
  lemma WrittenIs(t: seq<DecidedValue>, log: seq<DecidedValue>, base: nat, s: nat,
                  values: seq<DecidedValue>)
    requires s <= base + |log| && base <= s + |values| <= |t|
    requires values == t[s..s + |values|]
    requires base < s ==> log[..s - base] == t[base..s]
    ensures |Written(log, base, s, values)| == Max(|log|, s + |values| - base)
    ensures Written(log, base, s, values)[..s + |values| - base] == t[base..s + |values|]
  {
    var end := s + |values|;
    if end > base {
      var from := Max(s, base);
      assert values[from - s..] == t[from..end];
      assert log[..from - base] + t[from..end] == t[base..end];
      assert Written(log, base, s, values)[..end - base] == log[..from - base] + t[from..end];
    }
  }

  // The log after accepting is the leader's log from our base on: in the same round it simply
  // gets longer; in a new one everything below the leader's first value was common already.
  lemma AcceptIs(n: nat, i: nat, r: Replica, h: History, m: Message)
    requires LogOk(n, i, r, h) && ProposeOk(n, h, i, m) && m.round >= r.ackRound
    requires m.slot <= End(r) && r.logBase <= m.slot + |m.values|
    requires m.round == r.ackRound ==> End(r) <= m.slot + |m.values|
    requires r.logBase < m.slot ==>
               m.slot <= |h.rounds[m.round].log|
               && h.rounds[m.round].log[..m.slot] == h.rounds[r.ackRound].log[..m.slot]
    ensures AcceptLog(r, m) == r.(leader := m.sender, ackRound := m.round,
                                  log := h.rounds[m.round].log[r.logBase..m.slot + |m.values|])
  {
    AcceptsAs(h.rounds[r.ackRound].log, h.rounds[m.round].log, r, m);
  }

  lemma AcceptsAs(t0: seq<DecidedValue>, t: seq<DecidedValue>, r: Replica, m: Message)
    requires End(r) <= |t0| && r.log == t0[r.logBase..End(r)] && m.round >= r.ackRound
    requires m.slot <= End(r) && r.logBase <= m.slot + |m.values| <= |t|
    requires m.values == t[m.slot..m.slot + |m.values|]
    requires m.round == r.ackRound ==> End(r) <= m.slot + |m.values|
    requires r.logBase < m.slot ==> m.slot <= |t| && t[..m.slot] == t0[..m.slot]
    ensures AcceptLog(r, m) == r.(leader := m.sender, ackRound := m.round,
                                  log := t[r.logBase..m.slot + |m.values|])
  {
    if r.logBase < m.slot {
      SamePart(t0, t, r.log, r.logBase, End(r), m.slot);
    }
    WrittenIs(t, r.log, r.logBase, m.slot, m.values);
    AcceptCut(r, m, t[r.logBase..m.slot + |m.values|]);
  }

  // Two logs alike up to slot s have the same part from base to s.
  lemma SamePart(t0: seq<DecidedValue>, t: seq<DecidedValue>, log: seq<DecidedValue>, base: nat,
                 end: nat, s: nat)
    requires base <= s <= end <= |t0| && s <= |t| && log == t0[base..end] && t[..s] == t0[..s]
    ensures log[..s - base] == t[base..s]
  {
    assert t0[base..s] == t0[..s][base..];
    assert t[base..s] == t[..s][base..];
  }

  lemma AcceptCut(r: Replica, m: Message, want: seq<DecidedValue>)
    requires m.slot <= End(r) && r.logBase <= m.slot + |m.values|
    requires m.round <= r.ackRound ==> End(r) <= m.slot + |m.values|
    requires |want| == m.slot + |m.values| - r.logBase
    requires var w := Written(r.log, r.logBase, m.slot, m.values);
             |w| == Max(|r.log|, |want|) && w[..|want|] == want
    ensures AcceptLog(r, m) == r.(leader := m.sender, ackRound := m.round, log := want)
  {
    var w := Written(r.log, r.logBase, m.slot, m.values);
    assert |w| == |want| ==> w[..|want|] == w;
  }

  // Facts about the accepting replica that the surrounding cluster supplies.
  lemma AcceptedLog(n: nat, rs: seq<Replica>, h: History, i: nat, m: Message, r': Replica)
    requires n > 0 && |rs| == n && RoundsOk(n, h) && RepsOk(n, rs, h) && i < n
    requires ProposeOk(n, h, i, m) && rs[i].probeRound == m.round && !StalePropose(rs[i], m)
    requires r' == AcceptLog(rs[i], m)
    ensures rs[i].ackRound <= m.round
    ensures rs[i].logBase <= m.slot + |m.values| <= |h.rounds[m.round].log|
    ensures m.round == rs[i].ackRound ==> End(rs[i]) <= m.slot + |m.values|
    ensures r' == rs[i].(leader := m.sender, ackRound := m.round,
                         log := h.rounds[m.round].log[rs[i].logBase..m.slot + |m.values|])
    ensures rs[i].decided <= m.slot + |m.values|
  {
    var r := rs[i];
    assert RepOk(n, i, r, h);
    ProposeFits(n, rs, h, i, m);
    if r.ackRound < m.round {
      BaseHeld(n, rs, h, i);
      DecidedShorter(n, h, r.ackRound, h.base, m.slot);
      LaterRoundAgrees(n, h, r.ackRound, m.round, m.slot);
    }
    AcceptIs(n, i, r, h, m);
  }

  lemma AcceptRounds(n: nat, rs: seq<Replica>, h: History, i: nat, q: nat, end: nat)
    requires n > 0 && |rs| == n && |h.acc| == n && i < n
    requires RoundsOk(n, h) && CommittedOk(n, h) && PromisesOk(n, rs, h.rounds)
    requires Grows(n, i, rs[i].probeRound, h, Accepting(h, i, q, end))
    requires q in h.rounds && end <= |h.rounds[q].log|
    ensures RoundsOk(n, Accepting(h, i, q, end)) && CommittedOk(n, Accepting(h, i, q, end))
  {
    var h' := Accepting(h, i, q, end);
    forall t | t in h'.rounds ensures RoundOk(n, h', t) {
      assert RoundOk(n, h, t);
      RoundStable(n, i, rs, h, h', t);
    }
    forall j, t | Acc(h'.acc, j, t) > 0
      ensures t in h'.rounds && Acc(h'.acc, j, t) <= |h'.rounds[t].log| {
      assert Acc(h'.acc, j, t) == Acc(h.acc, j, t) || (j == i && t == q);
    }
    ChosenStable(n, i, rs[i].probeRound, h, h', h.chosenRound, |h.committed|);
  }

  // The accepting replica satisfies its invariant for the grown history.
  lemma AcceptRep(n: nat, i: nat, r: Replica, h: History, m: Message, r': Replica, h': History)
    requires n > 0 && RoundsOk(n, h) && RepOk(n, i, r, h) && ProposeOk(n, h, i, m)
    requires r.probeRound == m.round && r.ackRound <= m.round && m.sender < n && m.sender != i
    requires h' == Accepting(h, i, m.round, m.slot + |m.values|)
    requires Grows(n, i, r.probeRound, h, h')
    requires r' == r.(leader := m.sender, ackRound := m.round, log := r'.log)
    requires End(r') == m.slot + |m.values| && r.decided <= End(r')
    requires r'.log == h.rounds[m.round].log[r.logBase..End(r')]
    ensures RepOk(n, i, r', h')
  {
    LaterRoundAgrees(n, h, r.ackRound, m.round, r.decided);
    DecidedStable(n, i, r.probeRound, h, h', m.round, r.decided);
    AcceptDb(n, r, h, m, r');
    RepliesStable(n, i, h, h', r);
    PendingStable(n, i, h, h', r);
    AcceptBase(n, i, r, h, m, r', h');
  }

  lemma AcceptDb(n: nat, r: Replica, h: History, m: Message, r': Replica)
    requires DbOk(r, h) && r'.db == r.db && r'.ran == r.ran
    requires r'.applied == r.applied && r'.ackRound == m.round
    requires m.round in h.rounds && r.applied <= r.decided
    requires r.decided <= |h.rounds[r.ackRound].log| && r.decided <= |h.rounds[m.round].log|
    requires h.rounds[m.round].log[..r.decided] == h.rounds[r.ackRound].log[..r.decided]
    ensures DbOk(r', h)
  {
    assert h.rounds[m.round].log[..r.applied] == h.rounds[m.round].log[..r.decided][..r.applied];
    assert h.rounds[r.ackRound].log[..r.applied]
        == h.rounds[r.ackRound].log[..r.decided][..r.applied];
  }

  lemma AcceptBase(n: nat, i: nat, r: Replica, h: History, m: Message, r': Replica, h': History)
    requires n > 0 && BaseOk(i, r, h) && r.ackRound <= m.round
    requires h'.base == h.base && h'.baseRound == h.baseRound
    requires Grows(n, i, r.probeRound, h, h')
    requires r'.logBase == r.logBase && r'.ackRound == m.round
    ensures BaseOk(i, r', h')
  {
    AccMonotone(n, i, r.probeRound, h, h', i, h.baseRound);
  }

  lemma AcceptLocal(n: nat, rs: seq<Replica>, h: History, i: nat, m: Message, r': Replica)
    returns (h': History)
    requires n > 0 && |rs| == n && |h.acc| == n && i < n && m.sender < n && m.sender != i
    requires RoundsOk(n, h) && RepsOk(n, rs, h)
    requires ProposeOk(n, h, i, m) && rs[i].probeRound == m.round
    requires rs[i].ackRound <= m.round
    requires rs[i].logBase <= m.slot + |m.values| <= |h.rounds[m.round].log|
    requires m.round == rs[i].ackRound ==> End(rs[i]) <= m.slot + |m.values|
    requires r' == rs[i].(leader := m.sender, ackRound := m.round,
                          log := h.rounds[m.round].log[rs[i].logBase..m.slot + |m.values|])
    requires rs[i].decided <= m.slot + |m.values|
    ensures h' == Accepting(h, i, m.round, m.slot + |m.values|)
    ensures Grows(n, i, rs[i].probeRound, h, h')
    ensures RepOk(n, i, r', h')
    ensures End(r') == m.slot + |m.values|
  {
    assert RepOk(n, i, rs[i], h);
    AcceptGrows(n, i, rs[i], h, m);
    h' := Accepting(h, i, m.round, m.slot + |m.values|);
    AcceptRep(n, i, rs[i], h, m, r', h');
  }

  lemma AcceptMove(n: nat, i: nat, rs: seq<Replica>, h: History, rs': seq<Replica>,
                   ps: seq<Packet>, m: Message) returns (h': History)
    requires AllOk(n, rs, h, ps) && i < n && m.sender < n && m.sender != i
    requires ProposeOk(n, h, i, m) && rs[i].probeRound == m.round && !StalePropose(rs[i], m)
    requires |rs'| == n && rs' == rs[i := AcceptLog(rs[i], m)]
    ensures AllOk(n, rs', h', ps)
    ensures h' == h.(acc := h'.acc) && Grows(n, i, rs[i].probeRound, h, h')
    ensures End(rs'[i]) == m.slot + |m.values|
  {
    AcceptedLog(n, rs, h, i, m, rs'[i]);
    h' := AcceptedMove(n, i, rs, h, rs', ps, m);
  }

  lemma AcceptedMove(n: nat, i: nat, rs: seq<Replica>, h: History, rs': seq<Replica>,
                     ps: seq<Packet>, m: Message) returns (h': History)
    requires AllOk(n, rs, h, ps) && i < n && m.sender < n && m.sender != i
    requires ProposeOk(n, h, i, m) && rs[i].probeRound == m.round && rs[i].ackRound <= m.round
    requires rs[i].logBase <= m.slot + |m.values| <= |h.rounds[m.round].log|
    requires m.round == rs[i].ackRound ==> End(rs[i]) <= m.slot + |m.values|
    requires rs[i].decided <= m.slot + |m.values|
    requires |rs'| == n && rs' == rs[i := rs'[i]]
    requires rs'[i] == rs[i].(leader := m.sender, ackRound := m.round,
                              log := h.rounds[m.round].log[rs[i].logBase..m.slot + |m.values|])
    ensures AllOk(n, rs', h', ps)
    ensures h' == h.(acc := h'.acc) && Grows(n, i, rs[i].probeRound, h, h')
    ensures End(rs'[i]) == m.slot + |m.values|
  {
    h' := AcceptLocal(n, rs, h, i, m, rs'[i]);
    AcceptCore(n, i, rs, h, rs', m.round, m.slot + |m.values|);
    AdvanceQuietly(n, i, rs, h, rs', h', ps);
  }

  lemma AcceptCore(n: nat, i: nat, rs: seq<Replica>, h: History, rs': seq<Replica>,
                   q: nat, end: nat)
    requires CoreOk(n, rs, h) && i < n
    requires |rs'| == n && rs' == rs[i := rs'[i]] && rs'[i].probeRound == rs[i].probeRound
    requires q in h.rounds && end <= |h.rounds[q].log|
    requires Grows(n, i, rs[i].probeRound, h, Accepting(h, i, q, end))
    requires RepOk(n, i, rs'[i], Accepting(h, i, q, end))
    ensures CoreOk(n, rs', Accepting(h, i, q, end))
  {
    var h' := Accepting(h, i, q, end);
    AcceptRounds(n, rs, h, i, q, end);
    HistoryUpdate(n, i, rs, h, rs');
    forall j | 0 <= j < n && j != i ensures BaseOk(j, rs[j], h') {
      assert RepOk(n, j, rs[j], h);
    }
    AdvanceCore(n, i, rs, h, rs', h');
  }
}

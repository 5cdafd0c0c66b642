/** n replicas and the packets between them. Packets may be lost, delayed and reordered; each is
    delivered at most once. A handler, with every message it sends, is one atomic step. */
module Cluster {
  import opened Common
  import opened TaskTypes
  import opened ReplicaSpec

  // packets holds everything ever sent; spent, the positions already delivered or lost.
  datatype Sys = Sys(n: nat, rs: seq<Replica>, packets: seq<Packet>, spent: set<nat>)

  datatype Action =
    | Deliver(k: nat)
    | Lose(k: nat)
    | Tick(i: nat, silent: bool)
    | Client(i: nat, id: nat, req: Request, now: int)

  function Init(n: nat): Sys {
    Sys(n, seq(n, i requires 0 <= i < n => Start(i, n)), [], {})
  }

  predicate InFlight(s: Sys, k: nat) { k < |s.packets| && k !in s.spent }

  function Put(s: Sys, i: nat, e: Effect): Sys
    requires i < |s.rs|
  {
    s.(rs := s.rs[i := e.r], packets := s.packets + e.out)
  }

  function Step(s: Sys, a: Action): Sys {
    match a
    case Deliver(k) =>
      if InFlight(s, k) && s.packets[k].dst < |s.rs| then
        var p := s.packets[k];
        Put(s.(spent := s.spent + {k}), p.dst, Receive(s.rs[p.dst], p.msg))
      else s
    case Lose(k) => s.(spent := s.spent + {k})
    case Tick(i, silent) =>
      if i < |s.rs| && s.rs[i].n > 0 then Put(s, i, Timeout(s.rs[i], silent)) else s
    case Client(i, id, req, now) =>
      if i < |s.rs| then Put(s, i, ClientPropose(s.rs[i], id, req, now)) else s
  }

  // A step that makes replica i leader of a round, out of these responses. (A lone replica leads
  // from the start and never stands for election.)
  datatype Win = Win(i: nat, round: nat, responses: seq<Message>)

  function Winner(s: Sys, a: Action): (w: Option<Win>)
    ensures w.Some? ==> |w.value.responses| > 0
  {
    match a
    case Deliver(k) =>
      if InFlight(s, k) && s.packets[k].dst < |s.rs| then
        var m := s.packets[k].msg;
        var r := StepDown(s.rs[s.packets[k].dst], m);
        if Wins(r, m) then Some(Win(s.packets[k].dst, m.round, r.responses + [m])) else None
      else None
    case _ => None
  }

  // What a step proposes: a client's request, if the replica asked takes itself for the leader.
  function Accepted(s: Sys, a: Action): Option<Ticket> {
    match a
    case Client(i, id, req, now) =>
      if i < |s.rs| && s.rs[i].index == s.rs[i].leader then
        Some(Ticket(id, s.rs[i].probeRound, ValueOf(req, now)))
      else None
    case _ => None
  }

  // The state after a run of actions from the start.
  function Run(n: nat, acts: seq<Action>): Sys {
    if |acts| == 0 then Init(n) else Step(Run(n, Front(acts)), Last(acts))
  }
}

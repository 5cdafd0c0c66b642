/** The wire format by name: which path, key, word and cast stands for which field, of every request,
    replica message and log line, and that nothing else is written. */
module WireNames {
  import opened Common
  import opened TaskTypes
  import opened ReplicaSpec
  import opened Json
  import opened Wire
  import Transport
  import DecisionLog

  // ---- fields ----

  predicate Absent(j: Json, key: string) { j.Obj? && key !in j.fields }

  predicate TextAt(j: Json, key: string, v: string) {
    j.Obj? && key in j.fields && j.fields[key] == Str(v)
  }

  // An unsigned 64-bit integer.
  predicate CountAt(j: Json, key: string, v: nat) {
    j.Obj? && key in j.fields && j.fields[key].Num? && v == j.fields[key].v % 0x1_0000_0000_0000_0000
  }

  // A signed one.
  predicate ClockAt(j: Json, key: string, v: int) {
    && j.Obj? && key in j.fields && j.fields[key].Num?
    && -0x8000_0000_0000_0000 <= v < 0x8000_0000_0000_0000
    && (j.fields[key].v - v) % 0x1_0000_0000_0000_0000 == 0
  }

  // A plain int, of 32 bits; booleans are 0 and 1.
  predicate IntAt(j: Json, key: string, v: int) {
    && j.Obj? && key in j.fields
    && match j.fields[key]
       case Num(x) => -0x8000_0000 <= v < 0x8000_0000 && (x - v) % 0x1_0000_0000 == 0
       case Bool(b) => v == if b then 1 else 0
       case _ => false
  }

  predicate TextOrEmpty(j: Json, key: string, v: string) {
    TextAt(j, key, v) || (Absent(j, key) && v == "")
  }

  predicate OptText(j: Json, key: string, o: Option<string>) {
    if o.Some? then TextAt(j, key, o.value) else Absent(j, key)
  }

  predicate OptCount(j: Json, key: string, o: Option<nat>) {
    if o.Some? then CountAt(j, key, o.value) else Absent(j, key)
  }

  predicate TypeAt(j: Json, key: string, t: TaskType) {
    TextAt(j, key, match t case Plan => "plan" case Implement => "implement" case Merge => "merge")
  }

  predicate StatusAt(j: Json, key: string, s: TaskStatus) {
    TextAt(j, key, match s
                   case Pending => "pending"
                   case InProgress => "in_progress"
                   case Done => "done"
                   case Failed => "failed")
  }

  predicate IdsAt(j: Json, key: string, ids: seq<TaskId>) {
    && j.Obj? && key in j.fields && j.fields[key].Arr?
    && |j.fields[key].items| == |ids|
    && forall k | 0 <= k < |ids| :: j.fields[key].items[k] == Str(ids[k])
  }

  // ---- task specs and requests ----

  predicate SpellsSpec(j: Json, s: TaskSpec) {
    && (TypeAt(j, "type", s.taskType) || (Absent(j, "type") && s.taskType == Plan))
    && TextOrEmpty(j, "title", s.title)
    && TextOrEmpty(j, "prompt", s.prompt)
    && (IdsAt(j, "requires", s.requiresDeps) || (Absent(j, "requires") && s.requiresDeps == []))
    && OptText(j, "parent_id", s.parentId)
    && OptText(j, "branch_base", s.branchBase)
    && OptText(j, "implement_branch_sha", s.implementBranchSha)
    && (IntAt(j, "depth", s.depth) || (Absent(j, "depth") && s.depth == 0))
  }

  predicate SpellsChildren(j: Json, key: string, kids: seq<TaskSpec>) {
    && j.Obj? && key in j.fields
    && |Items(j.fields[key])| == |kids|
    && forall k | 0 <= k < |kids| :: SpellsSpec(Items(j.fields[key])[k], kids[k])
  }

  // The body j under this path stands for the request r.
  predicate Spells(path: string, j: Json, r: Request) {
    && (CountAt(j, "serial", r.serial) || (Absent(j, "serial") && r.serial == 0))
    && TextOrEmpty(j, "agent_id", r.agent)
    && match r
       case Create(_, _, spec, task, token) =>
         && path == "/task_create"
         && Has(j, "spec") && SpellsSpec(j.fields["spec"], spec)
         && OptText(j, "creator_task", task)
         && OptCount(j, "creator_token", token)
       case Claim(_, _, prefer) =>
         && path == "/task_claim"
         && if prefer.Some? then TypeAt(j, "prefer_type", prefer.value) else Absent(j, "prefer_type")
       case Heartbeat(_, _, id, token) =>
         path == "/task_heartbeat" && TextOrEmpty(j, "id", id) && CountAt(j, "token", token)
       case Complete(_, _, id, token, branch, summary, kids) =>
         && path == "/task_complete" && TextOrEmpty(j, "id", id) && CountAt(j, "token", token)
         && OptText(j, "result_branch", branch) && TextOrEmpty(j, "result_summary", summary)
         && (SpellsChildren(j, "new_children", kids) || (Absent(j, "new_children") && kids == []))
       case Fail(_, _, id, token, reason) =>
         && path == "/task_fail" && TextOrEmpty(j, "id", id) && CountAt(j, "token", token)
         && TextOrEmpty(j, "reason", reason)
       case List(_, _, status, mine) =>
         && path == "/task_list"
         && (if status.Some? then StatusAt(j, "filter_status", status.value)
             else Absent(j, "filter_status"))
         && ((Has(j, "only_mine") && j.fields["only_mine"] == Bool(mine))
             || (Absent(j, "only_mine") && !mine))
       case LockAcquire(_, _, task, token) =>
         path == "/main_lock_acquire" && TextOrEmpty(j, "merge_task", task)
         && CountAt(j, "merge_token", token)
       case LockRelease(_, _, token) => path == "/main_lock_release" && CountAt(j, "lock_token", token)
       case Resume(_, _) => path == "/swarm_resume"
  }

  // The signed cast is the one value in range that differs by a multiple.
  lemma Int32Is(x: int, v: int)
    ensures Signed(x, U32) == v
            <==> -0x8000_0000 <= v < 0x8000_0000 && (x - v) % 0x1_0000_0000 == 0
  {
    var q, w := x / 0x1_0000_0000, x % 0x1_0000_0000;
    assert x == 0x1_0000_0000 * q + w;
  }

  lemma Int64Is(x: int, v: int)
    ensures Signed(x, U64) == v
            <==> -0x8000_0000_0000_0000 <= v < 0x8000_0000_0000_0000
                 && (x - v) % 0x1_0000_0000_0000_0000 == 0
  {
    var q, w := x / 0x1_0000_0000_0000_0000, x % 0x1_0000_0000_0000_0000;
    assert x == 0x1_0000_0000_0000_0000 * q + w;
  }

  // A list converts to the values its elements convert to.
  lemma AllIs<T>(js: seq<Json>, get: Json -> Result<T>, xs: seq<T>)
    ensures All(js, get) == Ok(xs)
            <==> |xs| == |js| && forall k | 0 <= k < |js| :: get(js[k]) == Ok(xs[k])
  {
    if |xs| == |js| && forall k | 0 <= k < |js| :: get(js[k]) == Ok(xs[k]) {
      AllInverse(xs, js, get);
    }
  }

  lemma IdsAre(j: Json, key: string, ids: seq<TaskId>)
    requires Has(j, key)
    ensures AsStrings(j.fields[key]) == Ok(ids) <==> IdsAt(j, key, ids)
  {
    if j.fields[key].Arr? {
      AllIs(j.fields[key].items, AsString, ids);
    }
  }

  // Reading one field.
  lemma TextIs(j: Json, key: string, v: string)
    ensures ValueOr(j, key, "", AsString) == Ok(v) <==> TextOrEmpty(j, key, v)
  {
  }

  lemma OptTextIs(j: Json, key: string, o: Option<string>)
    requires j.Obj?
    ensures Optional(j, key, AsString) == Ok(o) <==> OptText(j, key, o)
  {
  }

  lemma SpecIs(j: Json, s: TaskSpec)
    ensures SpecFromJson(j) == Ok(s) <==> SpellsSpec(j, s)
  {
    if j.Obj? {
      SpecSteps(j, s);
      TextIs(j, "title", s.title);
      TextIs(j, "prompt", s.prompt);
      OptTextIs(j, "parent_id", s.parentId);
      OptTextIs(j, "branch_base", s.branchBase);
      OptTextIs(j, "implement_branch_sha", s.implementBranchSha);
      OtherFields(j, s);
    }
  }

  lemma OtherFields(j: Json, s: TaskSpec)
    requires j.Obj?
    ensures ValueOr(j, "type", Plan, TypeFromJson) == Ok(s.taskType)
            <==> TypeAt(j, "type", s.taskType) || (Absent(j, "type") && s.taskType == Plan)
    ensures ValueOr(j, "requires", [], AsStrings) == Ok(s.requiresDeps)
            <==> IdsAt(j, "requires", s.requiresDeps) || (Absent(j, "requires") && s.requiresDeps == [])
    ensures ValueOr(j, "depth", 0, AsInt) == Ok(s.depth)
            <==> IntAt(j, "depth", s.depth) || (Absent(j, "depth") && s.depth == 0)
  {
    if Has(j, "requires") {
      IdsAre(j, "requires", s.requiresDeps);
    }
    if Has(j, "depth") && j.fields["depth"].Num? {
      Int32Is(j.fields["depth"].v, s.depth);
    }
  }

  lemma SpecSteps(j: Json, s: TaskSpec)
    ensures SpecFromJson(j) == Ok(s)
            <==> && ValueOr(j, "type", Plan, TypeFromJson) == Ok(s.taskType)
                 && ValueOr(j, "title", "", AsString) == Ok(s.title)
                 && ValueOr(j, "prompt", "", AsString) == Ok(s.prompt)
                 && ValueOr(j, "requires", [], AsStrings) == Ok(s.requiresDeps)
                 && ValueOr(j, "depth", 0, AsInt) == Ok(s.depth)
                 && Optional(j, "parent_id", AsString) == Ok(s.parentId)
                 && Optional(j, "branch_base", AsString) == Ok(s.branchBase)
                 && Optional(j, "implement_branch_sha", AsString) == Ok(s.implementBranchSha)
  {
  }

  // Reading one request body.
  lemma HeadIs(j: Json, serial: nat, agent: string)
    ensures Serial(j) == Ok(serial)
            <==> CountAt(j, "serial", serial) || (Absent(j, "serial") && serial == 0)
    ensures Agent(j) == Ok(agent) <==> TextOrEmpty(j, "agent_id", agent)
  {
  }

  lemma TokenIs(j: Json, key: string, token: Token)
    ensures RequireToken(j, key) == Ok(token) <==> CountAt(j, key, token)
  {
  }

  lemma ChildrenAre(j: Json, kids: seq<TaskSpec>)
    requires j.Obj?
    ensures Children(j) == Ok(kids)
            <==> SpellsChildren(j, "new_children", kids) || (Absent(j, "new_children") && kids == [])
  {
    if Has(j, "new_children") {
      var items := Items(j.fields["new_children"]);
      AllIs(items, SpecFromJson, kids);
      forall k | 0 <= k < |items| && |items| == |kids|
        ensures SpecFromJson(items[k]) == Ok(kids[k]) <==> SpellsSpec(items[k], kids[k]) {
        SpecIs(items[k], kids[k]);
      }
    }
  }

  lemma CreateIs(j: Json, r: Request)
    ensures ParseCreate(j) == Ok(r) <==> r.Create? && Spells("/task_create", j, r)
  {
    HeadIs(j, r.serial, r.agent);
    if Has(j, "spec") && r.Create? {
      SpecIs(j.fields["spec"], r.spec);
      OptTextIs(j, "creator_task", r.creatorTask);
    }
  }

  lemma CompleteIs(j: Json, r: Request)
    ensures ParseComplete(j) == Ok(r) <==> r.Complete? && Spells("/task_complete", j, r)
  {
    HeadIs(j, r.serial, r.agent);
    if j.Obj? && r.Complete? {
      TextIs(j, "id", r.id);
      TokenIs(j, "token", r.token);
      OptTextIs(j, "result_branch", r.resultBranch);
      TextIs(j, "result_summary", r.resultSummary);
      ChildrenAre(j, r.newChildren);
    }
  }

  lemma TaskTokenRequestsAre(path: string, j: Json, r: Request)
    requires path == "/task_heartbeat" || path == "/task_fail"
    ensures Parse(path, j) == Ok(r) <==> Spells(path, j, r)
  {
  }

  lemma LockRequestsAre(path: string, j: Json, r: Request)
    requires path == "/main_lock_acquire" || path == "/main_lock_release"
    ensures Parse(path, j) == Ok(r) <==> Spells(path, j, r)
  {
  }

  lemma ListIs(j: Json, r: Request)
    ensures ParseList(j) == Ok(r) <==> Spells("/task_list", j, r)
  {
  }

  lemma OtherRequestsAre(path: string, j: Json, r: Request)
    requires path == "/task_claim" || path == "/swarm_resume"
    ensures Parse(path, j) == Ok(r) <==> Spells(path, j, r)
  {
  }

  // A body is read as a request exactly when it spells that request under its path.
  lemma ReadsExactly(path: string, j: Json, r: Request)
    ensures Parse(path, j) == Ok(r) <==> Spells(path, j, r)
  {
    if path == "/task_create" {
      CreateIs(j, r);
    } else if path == "/task_complete" {
      CompleteIs(j, r);
    } else if path == "/task_list" {
      ListIs(j, r);
    } else if path == "/task_claim" || path == "/swarm_resume" {
      OtherRequestsAre(path, j, r);
    } else if path == "/task_heartbeat" || path == "/task_fail" {
      TaskTokenRequestsAre(path, j, r);
    } else if path == "/main_lock_acquire" || path == "/main_lock_release" {
      LockRequestsAre(path, j, r);
    }
  }

  // ---- what is printed ----

  function Key(present: bool, key: string): set<string> { if present then {key} else {} }

  // The keys of a printed spec and of a printed request.
  function SpecKeys(s: TaskSpec): set<string> {
    {"type", "title", "prompt", "requires", "depth"}
    + Key(s.parentId.Some?, "parent_id")
    + Key(s.branchBase.Some?, "branch_base")
    + Key(s.implementBranchSha.Some?, "implement_branch_sha")
  }

  function BodyKeys(r: Request): set<string> {
    {"serial", "agent_id"}
    + match r
      case Create(_, _, _, task, token) =>
        {"spec"} + Key(task.Some?, "creator_task") + Key(token.Some?, "creator_token")
      case Claim(_, _, prefer) => Key(prefer.Some?, "prefer_type")
      case Heartbeat(_, _, _, _) => {"id", "token"}
      case Complete(_, _, _, _, branch, _, kids) =>
        {"id", "token", "result_summary"} + Key(branch.Some?, "result_branch")
        + Key(|kids| > 0, "new_children")
      case Fail(_, _, _, _, _) => {"id", "token", "reason"}
      case List(_, _, status, mine) => Key(status.Some?, "filter_status") + Key(mine, "only_mine")
      case LockAcquire(_, _, _, _) => {"merge_task", "merge_token"}
      case LockRelease(_, _, _) => {"lock_token"}
      case Resume(_, _) => {}
  }

  lemma SpecHasKeys(s: TaskSpec)
    ensures SpecToJson(s).Obj? && SpecToJson(s).fields.Keys == SpecKeys(s)
  {
  }

  // A spec is printed as an object that spells it and has no other keys.
  lemma SpecPrints(s: TaskSpec)
    requires FitsSpec(s)
    ensures SpellsSpec(SpecToJson(s), s)
    ensures SpecToJson(s).fields.Keys == SpecKeys(s)
  {
    SpecInverse(s);
    SpecIs(SpecToJson(s), s);
    SpecHasKeys(s);
  }

  lemma BodyPrints(r: Request)
    ensures Body(r).Obj? && Body(r).fields.Keys == BodyKeys(r)
  {
    if r.Complete? {
      assert CompleteFields(r).Keys == {"serial", "agent_id", "id", "token", "result_summary"}
                                       + Key(r.resultBranch.Some?, "result_branch");
    }
  }

  // A request is printed under its path as a body that spells it, and has no other keys.
  lemma PrintsExactly(r: Request)
    requires Fits(r)
    ensures Spells(Path(r), Body(r), r)
    ensures Body(r).fields.Keys == BodyKeys(r)
  {
    RequestRoundTrip(r);
    ReadsExactly(Path(r), Body(r), r);
    BodyPrints(r);
  }

  // ---- replica messages ----

  predicate SpellsValue(j: Json, v: DecidedValue) {
    && ClockAt(j, "now_unix", v.now)
    && TextAt(j, "agent_id", v.agent)
    && CountAt(j, "serial", v.serial)
    && Has(j, "req_path") && j.fields["req_path"].Str?
    && Has(j, "req") && Spells(j.fields["req_path"].s, j.fields["req"], v.req)
  }

  // An unknown type leaves the kind as it was.
  predicate KindAt(j: Json, key: string, k: MsgType, unset: MsgType) {
    && Has(j, key) && j.fields[key].Str?
    && var name := j.fields[key].s;
       if name == "PROPOSE" then k == Propose
       else if name == "ACK" then k == Ack
       else if name == "PROBE" then k == Probe
       else if name == "PREPARE" then k == Prepare
       else k == unset
  }

  predicate SpellsMessage(j: Json, m: Message, unset: MsgType) {
    && KindAt(j, "type", m.kind, unset)
    && CountAt(j, "sender", m.sender)
    && CountAt(j, "slot", m.slot)
    && CountAt(j, "ack_slot", m.ackSlot)
    && CountAt(j, "decided_slot", m.decidedSlot)
    && CountAt(j, "round", m.round)
    && CountAt(j, "ack_round", m.ackRound)
    && CountAt(j, "truncation_slot", m.truncationSlot)
    && Has(j, "values")
    && var items := Items(j.fields["values"]);
       && |items| == |m.values|
       && forall k | 0 <= k < |items| :: SpellsValue(items[k], m.values[k])
  }

  lemma ValueSteps(j: Json, v: DecidedValue)
    requires j.Obj?
    ensures Transport.ValueFromJson(j) == Ok(v)
            <==> && Transport.Get(j, "now_unix", AsI64) == Ok(v.now)
                 && Transport.Get(j, "agent_id", AsString) == Ok(v.agent)
                 && Transport.Get(j, "serial", AsU64) == Ok(v.serial)
                 && Has(j, "req_path") && j.fields["req_path"].Str? && Has(j, "req")
                 && Parse(j.fields["req_path"].s, j.fields["req"]) == Ok(v.req)
  {
  }

  lemma ValueIs(j: Json, v: DecidedValue)
    ensures Transport.ValueFromJson(j) == Ok(v) <==> SpellsValue(j, v)
  {
    if j.Obj? {
      ValueSteps(j, v);
    }
    if Has(j, "req_path") && j.fields["req_path"].Str? && Has(j, "req") {
      ReadsExactly(j.fields["req_path"].s, j.fields["req"], v.req);
    }
    if Has(j, "now_unix") && j.fields["now_unix"].Num? {
      Int64Is(j.fields["now_unix"].v, v.now);
    }
  }

  lemma HeaderIs(j: Json, m: Message, unset: MsgType)
    ensures Transport.Header(j, unset) == Ok(m.(values := []))
            <==> && KindAt(j, "type", m.kind, unset)
                 && CountAt(j, "sender", m.sender)
                 && CountAt(j, "slot", m.slot)
                 && CountAt(j, "ack_slot", m.ackSlot)
                 && CountAt(j, "decided_slot", m.decidedSlot)
                 && CountAt(j, "round", m.round)
                 && CountAt(j, "ack_round", m.ackRound)
                 && CountAt(j, "truncation_slot", m.truncationSlot)
  {
  }

  lemma MessageSteps(j: Json, m: Message, unset: MsgType)
    ensures Transport.FromJson(j, unset) == Ok(m)
            <==> && Transport.Header(j, unset) == Ok(m.(values := []))
                 && Has(j, "values")
                 && All(Items(j.fields["values"]), Transport.ValueFromJson) == Ok(m.values)
  {
    var h := Transport.Header(j, unset);
    if h.Ok? {
      assert h.value.values == [];
      assert forall vs :: h.value.(values := vs) == m ==> h.value == m.(values := []);
    }
  }

  lemma ValuesAre(items: seq<Json>, vs: seq<DecidedValue>)
    ensures All(items, Transport.ValueFromJson) == Ok(vs)
            <==> |items| == |vs| && forall k | 0 <= k < |items| :: SpellsValue(items[k], vs[k])
  {
    AllIs(items, Transport.ValueFromJson, vs);
    forall k | 0 <= k < |items| && |items| == |vs|
      ensures Transport.ValueFromJson(items[k]) == Ok(vs[k]) <==> SpellsValue(items[k], vs[k]) {
      ValueIs(items[k], vs[k]);
    }
  }

  // A message is read exactly when its fields are spelled so.
  lemma MessageReadsExactly(j: Json, m: Message, unset: MsgType)
    ensures Transport.FromJson(j, unset) == Ok(m) <==> SpellsMessage(j, m, unset)
  {
    MessageSteps(j, m, unset);
    HeaderIs(j, m, unset);
    if Has(j, "values") {
      ValuesAre(Items(j.fields["values"]), m.values);
    }
  }

  lemma MessagePrintsExactly(m: Message, unset: MsgType)
    requires Transport.FitsMessage(m)
    ensures SpellsMessage(Transport.ToJson(m), m, unset)
    ensures Transport.ToJson(m).fields.Keys
            == {"type", "sender", "slot", "values", "ack_slot", "decided_slot", "round", "ack_round",
                "truncation_slot"}
  {
    Transport.MessageRoundTrip(m, unset);
    MessageReadsExactly(Transport.ToJson(m), m, unset);
  }

  // ---- the decision log ----

  predicate ClockOr(j: Json, key: string, v: int, default: int) {
    ClockAt(j, key, v) || (Absent(j, key) && v == default)
  }

  predicate SpellsLine(j: Json, e: DecisionLog.Entry) {
    && ClockOr(j, "seq", e.seqNo, 0)
    && ClockOr(j, "now_unix", e.now, 0)
    && ClockOr(j, "applied_at_unix", e.appliedAt, -1)
    && TextOrEmpty(j, "path", e.path)
    && Has(j, "request") && Spells(e.path, j.fields["request"], e.req)
  }

  lemma ClockIs(j: Json, key: string, v: int, default: int)
    ensures ValueOr(j, key, default, AsI64) == Ok(v) <==> ClockOr(j, key, v, default)
  {
    if Has(j, key) && j.fields[key].Num? {
      Int64Is(j.fields[key].v, v);
    }
  }

  // A log line is read exactly when its fields are spelled so.
  lemma LineReadsExactly(j: Json, e: DecisionLog.Entry)
    ensures DecisionLog.ReadLine(j) == Ok(e) <==> SpellsLine(j, e)
  {
    ClockIs(j, "seq", e.seqNo, 0);
    ClockIs(j, "now_unix", e.now, 0);
    ClockIs(j, "applied_at_unix", e.appliedAt, -1);
    TextIs(j, "path", e.path);
    if Has(j, "request") {
      ReadsExactly(e.path, j.fields["request"], e.req);
    }
  }

  // The word for an outcome.
  predicate OutcomeAt(j: Json, key: string, e: Errc) {
    TextAt(j, key, match e
                   case Okay => "ok"
                   case Fenced => "fenced"
                   case NotFound => "not_found"
                   case NotEligible => "not_eligible"
                   case DepthExceeded => "depth_exceeded"
                   case Busy => "busy"
                   case Invalid => "invalid")
  }

  lemma LinePrintsExactly(seqNo: int, v: DecidedValue, appliedAt: int, e: Errc)
    requires InI64(seqNo) && InI64(appliedAt) && Transport.FitsValue(v)
    ensures var j := DecisionLog.Line(seqNo, v, appliedAt, e);
            && SpellsLine(j, DecisionLog.Entry(seqNo, v.now, appliedAt, Path(v.req), v.req))
            && OutcomeAt(j, "errcode", e)
            && j.fields.Keys == {"seq", "now_unix", "applied_at_unix", "path", "errcode", "request"}
  {
    var j := DecisionLog.Line(seqNo, v, appliedAt, e);
    DecisionLog.LineInverse(seqNo, v, appliedAt, e);
    LineReadsExactly(j, DecisionLog.Entry(seqNo, v.now, appliedAt, Path(v.req), v.req));
    assert j.fields["errcode"] == DecisionLog.ErrcToJson(e);
  }
}

/** Requests on the wire: the path and body a request is printed as, and the parser that reads them
    back (tm.cc). A thrown exception is an Err. */
module Wire {
  import opened Common
  import opened TaskTypes
  import opened Json

  // ---- enums as strings ----

  function TypeToJson(t: TaskType): Json {
    match t
    case Plan => Str("plan")
    case Implement => Str("implement")
    case Merge => Str("merge")
  }

  function TypeFromJson(j: Json): Result<TaskType> {
    var s :- AsString(j);
    if s == "plan" then Ok(Plan)
    else if s == "implement" then Ok(Implement)
    else if s == "merge" then Ok(Merge)
    else Err("unknown task_type: " + s)
  }

  function StatusToJson(t: TaskStatus): Json {
    match t
    case Pending => Str("pending")
    case InProgress => Str("in_progress")
    case Done => Str("done")
    case Failed => Str("failed")
  }

  function StatusFromJson(j: Json): Result<TaskStatus> {
    var s :- AsString(j);
    if s == "pending" then Ok(Pending)
    else if s == "in_progress" then Ok(InProgress)
    else if s == "done" then Ok(Done)
    else if s == "failed" then Ok(Failed)
    else Err("unknown task_status: " + s)
  }

  // A string is read as an enum value exactly when that value is printed as it.
  lemma EnumsInverse(j: Json, t: TaskType, s: TaskStatus)
    ensures TypeFromJson(j) == Ok(t) <==> j == TypeToJson(t)
    ensures StatusFromJson(j) == Ok(s) <==> j == StatusToJson(s)
  {
  }

  function MapStr(o: Option<string>): Option<Json> {
    if o.None? then None else Some(Str(o.value))
  }

  function MapNum(o: Option<nat>): Option<Json> {
    if o.None? then None else Some(Num(o.value))
  }

  // ---- task specs ----

  function SpecToJson(s: TaskSpec): Json {
    var f0 := map["type" := TypeToJson(s.taskType),
                  "title" := Str(s.title),
                  "prompt" := Str(s.prompt),
                  "requires" := FromStrings(s.requiresDeps),
                  "depth" := Num(s.depth)];
    var f1 := PutOption(f0, "parent_id", MapStr(s.parentId));
    var f2 := PutOption(f1, "branch_base", MapStr(s.branchBase));
    Obj(PutOption(f2, "implement_branch_sha", MapStr(s.implementBranchSha)))
  }

  function SpecFromJson(j: Json): Result<TaskSpec> {
    var taskType :- ValueOr(j, "type", Plan, TypeFromJson);
    var title :- ValueOr(j, "title", "", AsString);
    var prompt :- ValueOr(j, "prompt", "", AsString);
    var deps :- ValueOr(j, "requires", [], AsStrings);
    var depth :- ValueOr(j, "depth", 0, AsInt);
    var parent :- Optional(j, "parent_id", AsString);
    var base :- Optional(j, "branch_base", AsString);
    var sha :- Optional(j, "implement_branch_sha", AsString);
    Ok(TaskSpec(taskType, title, prompt, deps, parent, base, sha, depth))
  }

  // ---- what the C++ types can hold ----

  predicate FitsU64(v: nat) { v < U64 }

  predicate FitsSpec(s: TaskSpec) { InInt(s.depth) }

  predicate Fits(r: Request) {
    && FitsU64(r.serial)
    && match r
       case Create(_, _, spec, _, token) => FitsSpec(spec) && (token.Some? ==> FitsU64(token.value))
       case Claim(_, _, _) => true
       case Heartbeat(_, _, _, token) => FitsU64(token)
       case Complete(_, _, _, token, _, _, kids) =>
         FitsU64(token) && forall k | 0 <= k < |kids| :: FitsSpec(kids[k])
       case Fail(_, _, _, token, _) => FitsU64(token)
       case List(_, _, _, _) => true
       case LockAcquire(_, _, _, token) => FitsU64(token)
       case LockRelease(_, _, token) => FitsU64(token)
       case Resume(_, _) => true
  }

  lemma SpecInverse(s: TaskSpec)
    ensures SpecFromJson(SpecToJson(s)) == Ok(s) <==> FitsSpec(s)
  {
    SpecFields(s);
    SpecOptions(s);
    CastsKeep(s.depth);
  }

  // Reading back the fields that are always written ...
  lemma SpecFields(s: TaskSpec)
    ensures var j := SpecToJson(s);
            && ValueOr(j, "type", Plan, TypeFromJson) == Ok(s.taskType)
            && ValueOr(j, "title", "", AsString) == Ok(s.title)
            && ValueOr(j, "prompt", "", AsString) == Ok(s.prompt)
            && ValueOr(j, "requires", [], AsStrings) == Ok(s.requiresDeps)
            && ValueOr(j, "depth", 0, AsInt) == Ok(Signed(s.depth, U32))
  {
    var f := SpecToJson(s).fields;
    assert f["type"] == TypeToJson(s.taskType);
    assert f["title"] == Str(s.title);
    assert f["prompt"] == Str(s.prompt);
    assert f["depth"] == Num(s.depth);
    assert f["requires"] == FromStrings(s.requiresDeps);
    StringsInverse(s.requiresDeps);
    EnumsInverse(TypeToJson(s.taskType), s.taskType, Done);
  }

  // ... and the optional ones.
  lemma SpecOptions(s: TaskSpec)
    ensures var j := SpecToJson(s);
            && Optional(j, "parent_id", AsString) == Ok(s.parentId)
            && Optional(j, "branch_base", AsString) == Ok(s.branchBase)
            && Optional(j, "implement_branch_sha", AsString) == Ok(s.implementBranchSha)
  {
  }

  lemma SpecFits(j: Json)
    ensures SpecFromJson(j).Ok? ==> FitsSpec(SpecFromJson(j).value)
  {
  }

  // ---- parsing ----

  function Serial(j: Json): Result<nat> { ValueOr(j, "serial", 0, AsU64) }

  function Agent(j: Json): Result<string> { ValueOr(j, "agent_id", "", AsString) }

  // A fencing token must be there: a missing one must not read as 0.
  function RequireToken(j: Json, key: string): Result<Token> {
    if !Has(j, key) then Err("missing required field '" + key + "'") else AsU64(j.fields[key])
  }

  function Children(j: Json): Result<seq<TaskSpec>> {
    if Has(j, "new_children") then All(Items(j.fields["new_children"]), SpecFromJson) else Ok([])
  }

  function ParseCreate(j: Json): Result<Request> {
    var serial :- Serial(j);
    var agent :- Agent(j);
    if !Has(j, "spec") then Err("missing 'spec'")
    else
      var spec :- SpecFromJson(j.fields["spec"]);
      var task :- Optional(j, "creator_task", AsString);
      var token :- Optional(j, "creator_token", AsU64);
      Ok(Create(serial, agent, spec, task, token))
  }

  function ParseClaim(j: Json): Result<Request> {
    var serial :- Serial(j);
    var agent :- Agent(j);
    var prefer :- Optional(j, "prefer_type", TypeFromJson);
    Ok(Claim(serial, agent, prefer))
  }

  function ParseHeartbeat(j: Json): Result<Request> {
    var serial :- Serial(j);
    var agent :- Agent(j);
    var id :- ValueOr(j, "id", "", AsString);
    var token :- RequireToken(j, "token");
    Ok(Heartbeat(serial, agent, id, token))
  }

  function ParseComplete(j: Json): Result<Request> {
    var serial :- Serial(j);
    var agent :- Agent(j);
    var id :- ValueOr(j, "id", "", AsString);
    var token :- RequireToken(j, "token");
    var branch :- Optional(j, "result_branch", AsString);
    var summary :- ValueOr(j, "result_summary", "", AsString);
    var kids :- Children(j);
    Ok(Complete(serial, agent, id, token, branch, summary, kids))
  }

  function ParseFail(j: Json): Result<Request> {
    var serial :- Serial(j);
    var agent :- Agent(j);
    var id :- ValueOr(j, "id", "", AsString);
    var token :- RequireToken(j, "token");
    var reason :- ValueOr(j, "reason", "", AsString);
    Ok(Fail(serial, agent, id, token, reason))
  }

  function ParseList(j: Json): Result<Request> {
    var serial :- Serial(j);
    var agent :- Agent(j);
    var status :- Optional(j, "filter_status", StatusFromJson);
    var mine :- ValueOr(j, "only_mine", false, AsBool);
    Ok(List(serial, agent, status, mine))
  }

  function ParseLockAcquire(j: Json): Result<Request> {
    var serial :- Serial(j);
    var agent :- Agent(j);
    var task :- ValueOr(j, "merge_task", "", AsString);
    var token :- RequireToken(j, "merge_token");
    Ok(LockAcquire(serial, agent, task, token))
  }

  function ParseLockRelease(j: Json): Result<Request> {
    var serial :- Serial(j);
    var agent :- Agent(j);
    var token :- RequireToken(j, "lock_token");
    Ok(LockRelease(serial, agent, token))
  }

  function ParseResume(j: Json): Result<Request> {
    var serial :- Serial(j);
    var agent :- Agent(j);
    Ok(Resume(serial, agent))
  }

  function Parse(path: string, j: Json): Result<Request> {
    if path == "/task_create" then ParseCreate(j)
    else if path == "/task_claim" then ParseClaim(j)
    else if path == "/task_heartbeat" then ParseHeartbeat(j)
    else if path == "/task_complete" then ParseComplete(j)
    else if path == "/task_fail" then ParseFail(j)
    else if path == "/task_list" then ParseList(j)
    else if path == "/main_lock_acquire" then ParseLockAcquire(j)
    else if path == "/main_lock_release" then ParseLockRelease(j)
    else if path == "/swarm_resume" then ParseResume(j)
    else Err("unknown path: " + path)
  }

  // parse_request, with its loop over the children.
  method ParseRequest(path: string, j: Json) returns (r: Result<Request>)
    ensures r == Parse(path, j)
  {
    if path != "/task_complete" {
      return Parse(path, j);
    }
    var serial :- Serial(j);
    var agent :- Agent(j);
    var id :- ValueOr(j, "id", "", AsString);
    var token :- RequireToken(j, "token");
    var branch :- Optional(j, "result_branch", AsString);
    var summary :- ValueOr(j, "result_summary", "", AsString);
    var kids := [];
    if Has(j, "new_children") {
      var items := Items(j.fields["new_children"]);
      for k := 0 to |items|
        invariant All(items[..k], SpecFromJson) == Ok(kids)
      {
        assert Front(items[..k + 1]) == items[..k] && Last(items[..k + 1]) == items[k];
        AllFailsEarly(items, SpecFromJson, k + 1);
        var kid :- SpecFromJson(items[k]);
        kids := kids + [kid];
      }
      assert items[..|items|] == items;
    }
    r := Ok(Complete(serial, agent, id, token, branch, summary, kids));
  }

  // ---- printing ----

  function Path(r: Request): string {
    match r
    case Create(_, _, _, _, _) => "/task_create"
    case Claim(_, _, _) => "/task_claim"
    case Heartbeat(_, _, _, _) => "/task_heartbeat"
    case Complete(_, _, _, _, _, _, _) => "/task_complete"
    case Fail(_, _, _, _, _) => "/task_fail"
    case List(_, _, _, _) => "/task_list"
    case LockAcquire(_, _, _, _) => "/main_lock_acquire"
    case LockRelease(_, _, _) => "/main_lock_release"
    case Resume(_, _) => "/swarm_resume"
  }

  // Task lists are the requests with the path the decision log leaves out.
  lemma ListPath(r: Request)
    ensures Path(r) == "/task_list" <==> r.List?
  {
  }

  function SpecsToJson(specs: seq<TaskSpec>): seq<Json> {
    seq(|specs|, k requires 0 <= k < |specs| => SpecToJson(specs[k]))
  }

  function BaseFields(r: Request): map<string, Json> {
    map["agent_id" := Str(r.agent), "serial" := Num(r.serial)]
  }

  function CompleteFields(r: Request): map<string, Json>
    requires r.Complete?
  {
    var f := BaseFields(r)["id" := Str(r.id)]["token" := Num(r.token)]
                          ["result_summary" := Str(r.resultSummary)];
    PutOption(f, "result_branch", MapStr(r.resultBranch))
  }

  function Body(r: Request): Json {
    var f := BaseFields(r);
    Obj(match r
        case Create(_, _, spec, task, token) =>
          PutOption(PutOption(f["spec" := SpecToJson(spec)], "creator_task", MapStr(task)),
                    "creator_token", MapNum(token))
        case Claim(_, _, prefer) =>
          if prefer.Some? then f["prefer_type" := TypeToJson(prefer.value)] else f
        case Heartbeat(_, _, id, token) => f["id" := Str(id)]["token" := Num(token)]
        case Complete(_, _, _, _, _, _, kids) =>
          if |kids| > 0 then CompleteFields(r)["new_children" := Arr(SpecsToJson(kids))]
          else CompleteFields(r)
        case Fail(_, _, id, token, reason) =>
          f["id" := Str(id)]["token" := Num(token)]["reason" := Str(reason)]
        case List(_, _, status, mine) =>
          var g := if status.Some? then f["filter_status" := StatusToJson(status.value)] else f;
          if mine then g["only_mine" := Bool(true)] else g
        case LockAcquire(_, _, task, token) =>
          f["merge_task" := Str(task)]["merge_token" := Num(token)]
        case LockRelease(_, _, token) => f["lock_token" := Num(token)]
        case Resume(_, _) => f)
  }

  // to_json_request_body, with its loop over the children.
  method ToJsonRequestBody(r: Request) returns (j: Json)
    ensures j == Body(r)
  {
    if !r.Complete? {
      return Body(r);
    }
    var fields := CompleteFields(r);
    if r.newChildren != [] {
      var kids := [];
      for k := 0 to |r.newChildren|
        invariant kids == SpecsToJson(r.newChildren[..k])
      {
        kids := kids + [SpecToJson(r.newChildren[k])];
      }
      assert r.newChildren[..|r.newChildren|] == r.newChildren;
      fields := fields["new_children" := Arr(kids)];
    }
    j := Obj(fields);
  }

  // ---- round trips ----

  lemma BaseInverse(r: Request)
    requires FitsU64(r.serial)
    ensures Serial(Body(r)) == Ok(r.serial)
    ensures Agent(Body(r)) == Ok(r.agent)
  {
    assert "serial" != "reason";
    CastsKeep(r.serial);
    var f := Body(r).fields;
    assert f["serial"] == Num(r.serial);
    assert f["agent_id"] == Str(r.agent);
  }

  lemma CompleteInverse(r: Request)
    requires r.Complete? && Fits(r)
    ensures ParseComplete(Body(r)) == Ok(r)
  {
    BaseInverse(r);
    CastsKeep(r.token);
    ChildrenInverse(r);
    CompleteFieldsInverse(r);
  }

  lemma CompleteFieldsInverse(r: Request)
    requires r.Complete? && FitsU64(r.token)
    ensures var j := Body(r);
            && ValueOr(j, "id", "", AsString) == Ok(r.id)
            && RequireToken(j, "token") == Ok(r.token)
            && Optional(j, "result_branch", AsString) == Ok(r.resultBranch)
            && ValueOr(j, "result_summary", "", AsString) == Ok(r.resultSummary)
  {
    CastsKeep(r.token);
  }

  lemma ChildrenInverse(r: Request)
    requires r.Complete? && forall k | 0 <= k < |r.newChildren| :: FitsSpec(r.newChildren[k])
    ensures Children(Body(r)) == Ok(r.newChildren)
  {
    var kids := r.newChildren;
    if |kids| > 0 {
      forall k | 0 <= k < |kids| ensures SpecFromJson(SpecsToJson(kids)[k]) == Ok(kids[k]) {
        SpecInverse(kids[k]);
      }
      AllInverse(kids, SpecsToJson(kids), SpecFromJson);
    }
  }

  lemma CreateInverse(r: Request)
    requires r.Create? && Fits(r)
    ensures ParseCreate(Body(r)) == Ok(r)
  {
    BaseInverse(r);
    SpecInverse(r.spec);
    if r.creatorToken.Some? {
      CastsKeep(r.creatorToken.value);
    }
    CreateFieldsInverse(r);
  }

  lemma CreateFieldsInverse(r: Request)
    requires r.Create?
    ensures var j := Body(r);
            && Has(j, "spec") && j.fields["spec"] == SpecToJson(r.spec)
            && Optional(j, "creator_task", AsString) == Ok(r.creatorTask)
            && (r.creatorToken.None? ==> !Has(j, "creator_token"))
            && (r.creatorToken.Some? ==>
                  Has(j, "creator_token") && j.fields["creator_token"] == Num(r.creatorToken.value))
  {
  }

  lemma TokenRequestsInverse(r: Request)
    requires Fits(r) && (r.Heartbeat? || r.Fail? || r.LockAcquire? || r.LockRelease?)
    ensures Parse(Path(r), Body(r)) == Ok(r)
  {
    BaseInverse(r);
    CastsKeep(if r.LockAcquire? then r.mergeToken else if r.LockRelease? then r.lockToken else r.token);
  }

  lemma PlainRequestsInverse(r: Request)
    requires Fits(r) && (r.Claim? || r.List? || r.Resume?)
    ensures Parse(Path(r), Body(r)) == Ok(r)
  {
    BaseInverse(r);
  }

  lemma CreateFits(j: Json)
    ensures var r := ParseCreate(j); r.Ok? ==> r.value.Create? && Fits(r.value)
  {
    if Has(j, "spec") {
      SpecFits(j.fields["spec"]);
    }
  }

  lemma CompleteFits(j: Json)
    ensures var r := ParseComplete(j); r.Ok? ==> r.value.Complete? && Fits(r.value)
  {
    if Has(j, "new_children") {
      var items := Items(j.fields["new_children"]);
      var kids := All(items, SpecFromJson);
      forall k | kids.Ok? && 0 <= k < |items| ensures FitsSpec(kids.value[k]) {
        SpecFits(items[k]);
        assert SpecFromJson(items[k]) == Ok(kids.value[k]);
      }
    }
  }

  lemma TokenRequestsFit(path: string, j: Json)
    requires TokenField(path).Some? && path != "/task_complete"
    ensures var r := Parse(path, j); r.Ok? ==> Path(r.value) == path && Fits(r.value)
  {
  }

  // Whatever parses is a request of that path whose numbers fit.
  lemma ParsedFits(path: string, j: Json)
    ensures var r := Parse(path, j); r.Ok? ==> Path(r.value) == path && Fits(r.value)
  {
    CreateFits(j);
    CompleteFits(j);
    if TokenField(path).Some? && path != "/task_complete" {
      TokenRequestsFit(path, j);
    }
  }

  // Parsing what was printed gives the request back, exactly when its numbers fit the C++ types.
  lemma RequestRoundTrip(r: Request)
    ensures Parse(Path(r), Body(r)) == Ok(r) <==> Fits(r)
  {
    ParsedFits(Path(r), Body(r));
    if Fits(r) {
      if r.Create? {
        CreateInverse(r);
      } else if r.Complete? {
        CompleteInverse(r);
      } else if r.Claim? || r.List? || r.Resume? {
        PlainRequestsInverse(r);
      } else {
        TokenRequestsInverse(r);
      }
    }
  }

  // Whatever a client sends, printing what was understood and parsing again changes nothing:
  // a replica that gets the printed form acts on the very same request.
  lemma ParsedSurvives(path: string, j: Json)
    requires Parse(path, j).Ok?
    ensures var r := Parse(path, j).value;
            Path(r) == path && Parse(path, Body(r)) == Ok(r)
  {
    ParsedFits(path, j);
    RequestRoundTrip(Parse(path, j).value);
  }

  // ---- tokens ----

  function TokenField(path: string): Option<string> {
    if path == "/task_heartbeat" || path == "/task_complete" || path == "/task_fail" then Some("token")
    else if path == "/main_lock_acquire" then Some("merge_token")
    else if path == "/main_lock_release" then Some("lock_token")
    else None
  }

  function TokenOf(r: Request): Token
    requires TokenField(Path(r)).Some?
  {
    match r
    case Heartbeat(_, _, _, token) => token
    case Complete(_, _, _, token, _, _, _) => token
    case Fail(_, _, _, token, _) => token
    case LockAcquire(_, _, _, token) => token
    case LockRelease(_, _, token) => token
  }

  // A request that must carry a token is understood only if it does, and with that token:
  // no missing, misspelt or non-numeric field ever turns into token 0.
  lemma TokensAreExplicit(path: string, j: Json)
    requires Parse(path, j).Ok? && TokenField(path).Some?
    ensures var key := TokenField(path).value;
            && Has(j, key) && j.fields[key].Num?
            && Path(Parse(path, j).value) == path
            && TokenOf(Parse(path, j).value) == j.fields[key].v % U64
  {
  }
}

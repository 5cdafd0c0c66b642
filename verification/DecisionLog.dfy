/** The decision log: JSON lines for applied requests (tm-server.cc), read back by tm-replay
    (tm-replay.cc). A log with a line for every request but the task lists replays to the database;
    Journal says when a replica's own log is one. */
module DecisionLog {
  import opened Common
  import opened TaskTypes
  import opened Json
  import opened TaskMachine
  import opened ReplicaSpec
  import Wire
  import Transport
  import TaskInvariants

  datatype Entry = Entry(seqNo: int, now: int, appliedAt: int, path: string, req: Request)

  function ErrcToJson(e: Errc): Json {
    match e
    case Okay => Str("ok")
    case Fenced => Str("fenced")
    case NotFound => Str("not_found")
    case NotEligible => Str("not_eligible")
    case DepthExceeded => Str("depth_exceeded")
    case Busy => Str("busy")
    case Invalid => Str("invalid")
  }

  // The line written when a decided value is applied.
  function Line(seqNo: int, v: DecidedValue, appliedAt: int, e: Errc): Json {
    Obj(map["seq" := Num(seqNo),
            "now_unix" := Num(v.now),
            "applied_at_unix" := Num(appliedAt),
            "path" := Str(Wire.Path(v.req)),
            "errcode" := ErrcToJson(e),
            "request" := Wire.Body(v.req)])
  }

  function ReadLine(j: Json): Result<Entry> {
    var seqNo :- ValueOr(j, "seq", 0, AsI64);
    var now :- ValueOr(j, "now_unix", 0, AsI64);
    var appliedAt :- ValueOr(j, "applied_at_unix", -1, AsI64);
    var path :- ValueOr(j, "path", "", AsString);
    if !Has(j, "request") then Err("missing 'request'")
    else
      var req :- Wire.Parse(path, j.fields["request"]);
      Ok(Entry(seqNo, now, appliedAt, path, req))
  }

  lemma LineInverse(seqNo: int, v: DecidedValue, appliedAt: int, e: Errc)
    requires InI64(seqNo) && InI64(appliedAt) && Transport.FitsValue(v)
    ensures ReadLine(Line(seqNo, v, appliedAt, e))
            == Ok(Entry(seqNo, v.now, appliedAt, Wire.Path(v.req), v.req))
  {
    CastsKeep(seqNo);
    CastsKeep(v.now);
    CastsKeep(appliedAt);
    Wire.RequestRoundTrip(v.req);
    LineFields(seqNo, v, appliedAt, e);
  }

  lemma LineFields(seqNo: int, v: DecidedValue, appliedAt: int, e: Errc)
    ensures var j := Line(seqNo, v, appliedAt, e);
            && ValueOr(j, "seq", 0, AsI64) == AsI64(Num(seqNo))
            && ValueOr(j, "now_unix", 0, AsI64) == AsI64(Num(v.now))
            && ValueOr(j, "applied_at_unix", -1, AsI64) == AsI64(Num(appliedAt))
            && ValueOr(j, "path", "", AsString) == Ok(Wire.Path(v.req))
            && Has(j, "request") && j.fields["request"] == Wire.Body(v.req)
  {
    var f := Line(seqNo, v, appliedAt, e).fields;
    assert f["seq"] == Num(seqNo);
    assert f["now_unix"] == Num(v.now);
    assert f["applied_at_unix"] == Num(appliedAt);
    assert f["path"] == Str(Wire.Path(v.req));
    assert f["request"] == Wire.Body(v.req);
  }

  // The database after replaying the entries in order.
  function StateAfter(es: seq<Entry>): State {
    if |es| == 0 then INIT else Process(StateAfter(Front(es)), Last(es).req, Last(es).now).0
  }

  lemma {:induction false} StateAfterValid(es: seq<Entry>)
    ensures TaskInvariants.Valid(StateAfter(es))
  {
    if |es| > 0 {
      StateAfterValid(Front(es));
      TaskInvariants.ProcessKeepsValid(StateAfter(Front(es)), Last(es).req, Last(es).now);
    } else {
      assert TaskInvariants.TableOk(INIT) && TaskInvariants.TokensOk(INIT);
    }
  }

  // The lines written for logged values, at whatever times they were applied.
  ghost predicate WrittenFor(lines: seq<Json>, logged: seq<DecidedValue>) {
    && |lines| == |logged|
    && forall k | 0 <= k < |lines| :: LineFor(lines[k], k + 1, logged[k])
  }

  ghost predicate LineFor(line: Json, seqNo: int, v: DecidedValue) {
    exists at, e :: InI64(at) && line == Line(seqNo, v, at, e)
  }

  // The entry read from a line, whenever it was applied, is that request at that clock.
  predicate Same(e: Entry, v: DecidedValue) { e.req == v.req && e.now == v.now }

  lemma LineReads(line: Json, seqNo: int, v: DecidedValue)
    requires LineFor(line, seqNo, v) && InI64(seqNo) && Transport.FitsValue(v)
    ensures ReadLine(line).Ok? && Same(ReadLine(line).value, v)
  {
    var at, e :| InI64(at) && line == Line(seqNo, v, at, e);
    LineInverse(seqNo, v, at, e);
  }

  lemma ReadChangesNothing(s: State, v: DecidedValue)
    requires v.req.List?
    ensures Next(s, v) == s
  {
  }

  lemma SameStep(es: seq<Entry>, v: DecidedValue)
    requires |es| > 0 && Same(Last(es), v)
    ensures StateAfter(es) == Next(StateAfter(Front(es)), v)
  {
  }

  // Leaving out the reads loses nothing.
  lemma {:induction false} LoggedSuffices(vs: seq<DecidedValue>, es: seq<Entry>)
    requires |es| == |Logged(vs)| && forall k | 0 <= k < |es| :: Same(es[k], Logged(vs)[k])
    ensures StateAfter(es) == Replay(vs)
  {
    if |vs| == 0 {
      assert es == [];
    } else if !Last(vs).req.List? {
      SameEnds(vs, es);
      LoggedSuffices(Front(vs), Front(es));
      SameStep(es, Last(vs));
    } else {
      LoggedSuffices(Front(vs), es);
      ReadChangesNothing(Replay(Front(vs)), Last(vs));
    }
  }

  lemma SameEnds(vs: seq<DecidedValue>, es: seq<Entry>)
    requires |vs| > 0 && !Last(vs).req.List?
    requires |es| == |Logged(vs)| && forall k | 0 <= k < |es| :: Same(es[k], Logged(vs)[k])
    ensures |es| > 0 && Same(Last(es), Last(vs))
    ensures |Front(es)| == |Logged(Front(vs))|
    ensures forall k | 0 <= k < |es| - 1 :: Same(Front(es)[k], Logged(Front(vs))[k])
  {
    assert Same(es[|es| - 1], Logged(vs)[|es| - 1]);
    forall k | 0 <= k < |es| - 1 ensures Same(Front(es)[k], Logged(Front(vs))[k]) {
      assert Same(es[k], Logged(vs)[k]);
    }
  }

  lemma {:induction false} LoggedFits(vs: seq<DecidedValue>)
    requires forall v | v in vs :: Transport.FitsValue(v)
    ensures forall v | v in Logged(vs) :: Transport.FitsValue(v)
    ensures |Logged(vs)| <= |vs|
  {
    if |vs| == 0 {
    } else {
      LoggedFits(Front(vs));
    }
  }

  // From the decided values to the file and back: every line reads, and replaying what was read
  // gives the database of the values themselves.
  lemma ReplayedLogIsDb(vs: seq<DecidedValue>, lines: seq<Json>)
    requires WrittenFor(lines, Logged(vs)) && InI64(|vs|)
    requires forall v | v in vs :: Transport.FitsValue(v)
    ensures All(lines, ReadLine).Ok?
    ensures StateAfter(All(lines, ReadLine).value) == Replay(vs)
  {
    LoggedFits(vs);
    forall k | 0 <= k < |lines|
      ensures ReadLine(lines[k]).Ok? && Same(ReadLine(lines[k]).value, Logged(vs)[k]) {
      LineReads(lines[k], k + 1, Logged(vs)[k]);
    }
    var es := All(lines, ReadLine).value;
    forall k | 0 <= k < |es| ensures Same(es[k], Logged(vs)[k]) {
      assert ReadLine(lines[k]) == Ok(es[k]);
    }
    LoggedSuffices(vs, es);
  }
}

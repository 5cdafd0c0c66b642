/** Replica messages on the wire (tcp_transport.cc): every decided value carries its request as the
    path and body of Wire. */
module Transport {
  import opened Common
  import opened TaskTypes
  import opened ReplicaSpec
  import opened Json
  import Wire

  // A required field, converted.
  function Get<T>(j: Json, key: string, get: Json -> Result<T>): Result<T> {
    var f :- At(j, key);
    get(f)
  }

  function KindName(k: MsgType): string {
    match k
    case Propose => "PROPOSE"
    case Ack => "ACK"
    case Probe => "PROBE"
    case Prepare => "PREPARE"
  }

  // An unknown name leaves the field as it was.
  function KindFrom(name: string, unset: MsgType): MsgType {
    if name == "PROPOSE" then Propose
    else if name == "ACK" then Ack
    else if name == "PROBE" then Probe
    else if name == "PREPARE" then Prepare
    else unset
  }

  function ValueToJson(v: DecidedValue): Json {
    Obj(map["now_unix" := Num(v.now),
            "agent_id" := Str(v.agent),
            "serial" := Num(v.serial),
            "req_path" := Str(Wire.Path(v.req)),
            "req" := Wire.Body(v.req)])
  }

  function ValueFromJson(j: Json): Result<DecidedValue> {
    var now :- Get(j, "now_unix", AsI64);
    var agent :- Get(j, "agent_id", AsString);
    var serial :- Get(j, "serial", AsU64);
    var path :- Get(j, "req_path", AsString);
    var body :- At(j, "req");
    var req :- Wire.Parse(path, body);
    Ok(DecidedValue(now, agent, serial, req))
  }

  function ValuesToJson(vs: seq<DecidedValue>): seq<Json> {
    seq(|vs|, k requires 0 <= k < |vs| => ValueToJson(vs[k]))
  }

  function Printed(m: Message, values: seq<Json>): Json {
    Obj(map["type" := Str(KindName(m.kind)),
            "sender" := Num(m.sender),
            "slot" := Num(m.slot),
            "values" := Arr(values),
            "ack_slot" := Num(m.ackSlot),
            "decided_slot" := Num(m.decidedSlot),
            "round" := Num(m.round),
            "ack_round" := Num(m.ackRound),
            "truncation_slot" := Num(m.truncationSlot)])
  }

  function ToJson(m: Message): Json { Printed(m, ValuesToJson(m.values)) }

  // Everything but the values, in the order the fields are read.
  function Header(j: Json, unset: MsgType): Result<Message> {
    var name :- Get(j, "type", AsString);
    var sender :- Get(j, "sender", AsU64);
    var slot :- Get(j, "slot", AsU64);
    var ackSlot :- Get(j, "ack_slot", AsU64);
    var decidedSlot :- Get(j, "decided_slot", AsU64);
    var round :- Get(j, "round", AsU64);
    var ackRound :- Get(j, "ack_round", AsU64);
    var truncationSlot :- Get(j, "truncation_slot", AsU64);
    Ok(Message(KindFrom(name, unset), sender, slot, [], ackSlot, decidedSlot, round, ackRound,
               truncationSlot))
  }

  function FromJson(j: Json, unset: MsgType): Result<Message> {
    var m :- Header(j, unset);
    var list :- At(j, "values");
    var values :- All(Items(list), ValueFromJson);
    Ok(m.(values := values))
  }

  // to_json, with its loop over the values.
  method MessageToJson(m: Message) returns (j: Json)
    ensures j == ToJson(m)
  {
    var values := [];
    for k := 0 to |m.values|
      invariant values == ValuesToJson(m.values[..k])
    {
      var body := Wire.ToJsonRequestBody(m.values[k].req);
      var v := m.values[k];
      values := values + [Obj(map["now_unix" := Num(v.now),
                                  "agent_id" := Str(v.agent),
                                  "serial" := Num(v.serial),
                                  "req_path" := Str(Wire.Path(v.req)),
                                  "req" := body])];
    }
    assert m.values[..|m.values|] == m.values;
    j := Printed(m, values);
  }

  // from_json, with its loop over the values.
  method MessageFromJson(j: Json, unset: MsgType) returns (r: Result<Message>)
    ensures r == FromJson(j, unset)
  {
    var m :- Header(j, unset);
    var list :- At(j, "values");
    var items := Items(list);
    var values := [];
    for k := 0 to |items|
      invariant All(items[..k], ValueFromJson) == Ok(values)
    {
      assert Front(items[..k + 1]) == items[..k] && Last(items[..k + 1]) == items[k];
      AllFailsEarly(items, ValueFromJson, k + 1);
      var v :- ReadValue(items[k]);
      values := values + [v];
    }
    assert items[..|items|] == items;
    r := Ok(m.(values := values));
  }

  method ReadValue(j: Json) returns (r: Result<DecidedValue>)
    ensures r == ValueFromJson(j)
  {
    var now :- Get(j, "now_unix", AsI64);
    var agent :- Get(j, "agent_id", AsString);
    var serial :- Get(j, "serial", AsU64);
    var path :- Get(j, "req_path", AsString);
    var body :- At(j, "req");
    var req :- Wire.ParseRequest(path, body);
    r := Ok(DecidedValue(now, agent, serial, req));
  }

  // ---- round trips ----

  predicate FitsValue(v: DecidedValue) {
    InI64(v.now) && Wire.FitsU64(v.serial) && Wire.Fits(v.req)
  }

  predicate FitsHeader(m: Message) {
    && Wire.FitsU64(m.sender) && Wire.FitsU64(m.slot) && Wire.FitsU64(m.ackSlot)
    && Wire.FitsU64(m.decidedSlot) && Wire.FitsU64(m.round) && Wire.FitsU64(m.ackRound)
    && Wire.FitsU64(m.truncationSlot)
  }

  predicate FitsMessage(m: Message) {
    FitsHeader(m) && forall k | 0 <= k < |m.values| :: FitsValue(m.values[k])
  }

  lemma ValueRoundTrip(v: DecidedValue)
    ensures ValueFromJson(ValueToJson(v)) == Ok(v) <==> FitsValue(v)
  {
    CastsKeep(v.now);
    CastsKeep(v.serial);
    Wire.RequestRoundTrip(v.req);
    var j := ValueToJson(v);
    assert j.fields["now_unix"] == Num(v.now);
    assert j.fields["agent_id"] == Str(v.agent);
    assert j.fields["serial"] == Num(v.serial);
    assert j.fields["req_path"] == Str(Wire.Path(v.req));
    assert j.fields["req"] == Wire.Body(v.req);
  }

  // The header of a printed message, each number cast to what a size_t holds.
  lemma HeaderInverse(m: Message, values: seq<Json>, unset: MsgType)
    ensures At(Printed(m, values), "values") == Ok(Arr(values))
    ensures Header(Printed(m, values), unset)
            == Ok(Message(m.kind, m.sender % U64, m.slot % U64, [], m.ackSlot % U64,
                          m.decidedSlot % U64, m.round % U64, m.ackRound % U64,
                          m.truncationSlot % U64))
  {
    var f := Printed(m, values).fields;
    assert f["type"] == Str(KindName(m.kind));
    assert f["sender"] == Num(m.sender);
    assert f["slot"] == Num(m.slot);
    assert f["values"] == Arr(values);
    assert f["ack_slot"] == Num(m.ackSlot);
    assert f["decided_slot"] == Num(m.decidedSlot);
    assert f["round"] == Num(m.round);
    assert f["ack_round"] == Num(m.ackRound);
    assert f["truncation_slot"] == Num(m.truncationSlot);
  }

  lemma HeaderKept(m: Message)
    ensures FitsHeader(m) <==>
            m.sender % U64 == m.sender && m.slot % U64 == m.slot && m.ackSlot % U64 == m.ackSlot
            && m.decidedSlot % U64 == m.decidedSlot && m.round % U64 == m.round
            && m.ackRound % U64 == m.ackRound && m.truncationSlot % U64 == m.truncationSlot
  {
  }

  // Every message survives the wire, exactly when its numbers fit the C++ types.
  lemma MessageRoundTrip(m: Message, unset: MsgType)
    ensures FromJson(ToJson(m), unset) == Ok(m) <==> FitsMessage(m)
  {
    var js := ValuesToJson(m.values);
    HeaderInverse(m, js, unset);
    HeaderKept(m);
    if FromJson(ToJson(m), unset) == Ok(m) {
      forall k | 0 <= k < |m.values| ensures FitsValue(m.values[k]) {
        ValueRoundTrip(m.values[k]);
        assert ValueFromJson(js[k]) == Ok(m.values[k]);
      }
    }
    if FitsMessage(m) {
      forall k | 0 <= k < |m.values| ensures ValueFromJson(js[k]) == Ok(m.values[k]) {
        ValueRoundTrip(m.values[k]);
      }
      AllInverse(m.values, js, ValueFromJson);
    }
  }

  // So two replicas' messages that print alike are alike.
  lemma PrintedApart(m: Message, m': Message)
    requires FitsMessage(m) && FitsMessage(m') && ToJson(m) == ToJson(m')
    ensures m == m'
  {
    MessageRoundTrip(m, Ack);
    MessageRoundTrip(m', Ack);
  }
}

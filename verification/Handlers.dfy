// src/Handlers.cpp: the reply envelope, the query loops and the full snapshot. EuroScope's SDK
// is a value: what its cursors would enumerate during the call and how an action would end.

module Handlers {
  import opened Common
  import opened Messages

  // One SDK object. `json` is None when its serializer throws or yields unparseable text.
  datatype Record = Record(callsign: string, json: Option<Json>)

  type Text = s: string | s != "" witness "x"

  // The text handed to MakeResponse as a result: none, unparseable, or a document.
  datatype ResultText = NoText | BadText | GoodText(j: Json)

  datatype ActionEnd = Done(result: ResultText) | Refused(reason: Text)

  datatype Sdk = Sdk(
    plans: seq<Record>, targets: seq<Record>, controllers: seq<Record>, myself: Option<Record>,
    sectorElements: seq<Record>, channels: seq<Record>,
    selectedPlan: Option<Record>, selectedTarget: Option<Record>,
    transitionAltitude: int, connectionType: int, action: ActionEnd)

  function MakeResponse(id: string, success: bool, result: ResultText, error: string): Message {
    Response(
      id,
      success && !result.BadText?,
      if result.GoodText? then Some(result.j) else None,
      if error != "" then error else if result.BadText? then "Failed to serialize result" else "",
      None)
  }

  function MakeSuccess(id: string, result: ResultText): Message {
    MakeResponse(id, true, result, "")
  }

  function MakeError(id: string, error: string): Message {
    MakeResponse(id, false, NoText, error)
  }

  // An envelope is well formed when `success` says exactly that there is no `error`.
  predicate Coherent(m: Message) {
    m.Response? ==> (m.success <==> m.error == "")
  }

  // MakeResponse alone does not guarantee it: its caller must.
  lemma EnvelopeCoherence(id: string, success: bool, result: ResultText, error: string)
    ensures Coherent(MakeResponse(id, success, result, error)) <==> (result.BadText? || (success <==> error == ""))
  {
    assert "Failed to serialize result" != "" by { assert |"Failed to serialize result"| > 0; }
  }

  // The records that serialize, in cursor order.
  function Serialized(records: seq<Record>): seq<Json> {
    if records == [] then []
    else Serialized(records[..|records| - 1]) + SerializedOne(records[|records| - 1])
  }

  function SerializedOne(r: Record): seq<Json> {
    if r.json.Some? then [r.json.value] else []
  }

  function SerializedOption(r: Option<Record>): seq<Json> {
    if r.Some? then SerializedOne(r.value) else []
  }

  // Requests that change something through the SDK. `clear_estimation` is not one of them: its
  // branch builds an error and drops it, so the request falls through to the unknown types.
  const ACTIONS: set<string> := {
    "set_squawk", "set_final_altitude", "set_cleared_altitude", "set_scratchpad", "set_speed", "set_mach",
    "set_rate", "set_heading", "set_direct_to", "set_communication_type", "set_plan_type", "set_aircraft_info",
    "set_origin", "set_destination", "set_alternate", "set_remarks", "set_route", "set_true_airspeed",
    "set_departure_time", "set_actual_departure_time", "set_enroute_hours", "set_enroute_minutes",
    "set_fuel_hours", "set_fuel_minutes", "amend_flight_plan", "start_tracking", "end_tracking",
    "accept_handoff", "refuse_handoff", "initiate_handoff", "push_flight_strip", "set_estimation",
    "set_flight_strip_annotation", "correlate", "uncorrelate", "set_asel", "display_message", "send_command",
    "toggle_primary", "toggle_atis", "toggle_text_receive", "toggle_text_transmit", "toggle_voice_receive",
    "toggle_voice_transmit"}

  function Snapshot(sdk: Sdk): Json {
    Obj(map[
      "flightplans" := Arr(Serialized(sdk.plans)),
      "radar_targets" := Arr(Serialized(sdk.targets)),
      "controllers" := Arr(Serialized(sdk.controllers) + SerializedOption(sdk.myself))])
  }

  // The document a query replies with; None for any other request type.
  function QueryResult(sdk: Sdk, kind: string, callsign: string): Option<Json> {
    match kind
    case "get_flightplans" =>
      Some(Arr(if callsign != "" then SerializedOption(sdk.selectedPlan) else Serialized(sdk.plans)))
    case "get_radar_targets" =>
      Some(Arr(if callsign != "" then SerializedOption(sdk.selectedTarget) else Serialized(sdk.targets)))
    case "get_controllers" => Some(Arr(SerializedOption(sdk.myself) + Serialized(sdk.controllers)))
    case "get_sector_elements" => Some(Arr(Serialized(sdk.sectorElements)))
    case "get_voice_channels" => Some(Arr(Serialized(sdk.channels)))
    case "get_transition_altitude" => Some(Obj(map["transition_altitude" := Number(sdk.transitionAltitude as real)]))
    case "get_connection_type" => Some(Obj(map["connection_type" := Number(sdk.connectionType as real)]))
    case "get_full_snapshot" => Some(Snapshot(sdk))
    case _ => None
  }

  function CallsignOf(req: Json): string
    requires req.Obj?
  {
    if DATA in req.fields then OrEmpty(StrField(req.fields[DATA], "callsign")) else ""
  }

  // What follows the queries: the callsign check, the actions, the unknown types.
  function ActionReply(sdk: Sdk, id: string, kind: string, callsign: string): Message {
    if callsign == "" && "set_" <= kind && kind != "set_asel" then
      MakeError(id, "Missing 'callsign' for setter operation")
    else if kind in ACTIONS then
      match sdk.action
      case Done(result) => MakeSuccess(id, result)
      case Refused(reason) => MakeError(id, reason)
    else MakeError(id, "Unknown message type: " + kind)
  }

  function Answered(sdk: Sdk, payload: Payload): Option<Message> {
    if payload.Malformed? then None
    else if !payload.j.Obj? then Some(MakeError("", "Invalid request: expected a JSON object"))
    else
      var req := payload.j;
      var id := OrEmpty(StrField(req, ID));
      var kind := StrField(req, TYPE);
      if kind.None? then Some(MakeError(id, "Missing 'type' field"))
      else
        var found := QueryResult(sdk, kind.value, CallsignOf(req));
        if found.Some? then Some(MakeSuccess(id, GoodText(found.value)))
        else Some(ActionReply(sdk, id, kind.value, CallsignOf(req)))
  }

  // ----- the same, told by the fields of the request alone -----

  // How many of the first `n` records serialize.
  function Serializable(records: seq<Record>, n: nat): nat
    requires n <= |records|
  {
    |set i | 0 <= i < n && records[i].json.Some?|
  }

  // `j` lists exactly the records that serialize, in order.
  ghost predicate ListsAll(j: Json, records: seq<Record>) {
    && j.Arr? && |j.items| == Serializable(records, |records|)
    && forall i :: 0 <= i < |records| && records[i].json.Some? ==>
         && Serializable(records, i) < |j.items|
         && j.items[Serializable(records, i)] == records[i].json.value
  }

  // The own position in front of or behind the others.
  function Around(own: Option<Record>, others: seq<Record>, first: bool): seq<Record> {
    if own.None? then others else if first then [own.value] + others else others + [own.value]
  }

  // One selected object: its document, or nothing.
  predicate ListsOne(j: Json, r: Option<Record>) {
    j == Arr(if r.Some? && r.value.json.Some? then [r.value.json.value] else [])
  }

  function TextAt(fields: map<string, Json>, key: string): string {
    if key in fields && fields[key].Str? then fields[key].s else ""
  }

  function Refusal(id: string, error: string): Message { Response(id, false, None, error, None) }

  // The callsign a request is about, under `data`.
  function Callsign(fields: map<string, Json>): string {
    if "data" in fields && fields["data"].Obj? then TextAt(fields["data"].fields, "callsign") else ""
  }

  predicate Succeeds(m: Message, id: string) {
    m.Response? && m.result.Some? && m == Response(id, true, m.result, "", None)
  }

  // How a request that acts through the SDK is answered.
  predicate Ended(action: ActionEnd, id: string, m: Message) {
    match action
    case Done(NoText) => m == Response(id, true, None, "", None)
    case Done(GoodText(j)) => m == Response(id, true, Some(j), "", None)
    case Done(BadText) => m == Refusal(id, "Failed to serialize result")
    case Refused(reason) => m == Refusal(id, reason)
  }

  // A success whose document is the one asked for.
  ghost predicate Documents(sdk: Sdk, kind: string, callsign: string, j: Json) {
    match kind
    case "get_flightplans" => if callsign != "" then ListsOne(j, sdk.selectedPlan) else ListsAll(j, sdk.plans)
    case "get_radar_targets" => if callsign != "" then ListsOne(j, sdk.selectedTarget) else ListsAll(j, sdk.targets)
    case "get_controllers" => ListsAll(j, Around(sdk.myself, sdk.controllers, true))
    case "get_sector_elements" => ListsAll(j, sdk.sectorElements)
    case "get_voice_channels" => ListsAll(j, sdk.channels)
    case "get_transition_altitude" => j == Obj(map["transition_altitude" := Number(sdk.transitionAltitude as real)])
    case "get_connection_type" => j == Obj(map["connection_type" := Number(sdk.connectionType as real)])
    case "get_full_snapshot" =>
      && j.Obj? && j.fields.Keys == {"flightplans", "radar_targets", "controllers"}
      && ListsAll(j.fields["flightplans"], sdk.plans)
      && ListsAll(j.fields["radar_targets"], sdk.targets)
      && ListsAll(j.fields["controllers"], Around(sdk.myself, sdk.controllers, false))
    case _ => false
  }

  predicate IsQuery(kind: string) {
    kind in {"get_flightplans", "get_radar_targets", "get_controllers", "get_sector_elements", "get_voice_channels",
             "get_transition_altitude", "get_connection_type", "get_full_snapshot"}
  }

  // What the fields of a request say its reply is.
  ghost predicate Replies(sdk: Sdk, fields: map<string, Json>, m: Message) {
    var id := TextAt(fields, "id");
    if "type" !in fields || !fields["type"].Str? then m == Refusal(id, "Missing 'type' field")
    else
      var kind := fields["type"].s;
      if IsQuery(kind) then Succeeds(m, id) && Documents(sdk, kind, Callsign(fields), m.result.value)
      else if Callsign(fields) == "" && "set_" <= kind && kind != "set_asel" then
        m == Refusal(id, "Missing 'callsign' for setter operation")
      else if kind in ACTIONS then Ended(sdk.action, id, m)
      else m == Refusal(id, "Unknown message type: " + kind)
  }

  lemma PrefixSerializable(records: seq<Record>, n: nat)
    requires n <= |records|
    ensures Serializable(records, n) == |Serialized(records[..n])|
  {
    SerializedCount(records[..n]);
    var a := set i | 0 <= i < n && records[i].json.Some?;
    assert a == set i | 0 <= i < |records[..n]| && records[..n][i].json.Some?;
  }

  lemma SerializedLists(records: seq<Record>)
    ensures ListsAll(Arr(Serialized(records)), records)
  {
    hide Serializable, Serialized;
    assert records[..|records|] == records;
    PrefixSerializable(records, |records|);
    forall i | 0 <= i < |records| && records[i].json.Some?
      ensures Serializable(records, i) < |Serialized(records)|
      ensures Serialized(records)[Serializable(records, i)] == records[i].json.value
    {
      PrefixSerializable(records, i);
      SerializedIsFilterMap(records, i);
    }
  }

  lemma {:induction false} SerializedAppend(a: seq<Record>, b: seq<Record>)
    ensures Serialized(a + b) == Serialized(a) + Serialized(b)
    decreases |b|
  {
    if b == [] {
      assert a + b == a;
    } else {
      assert (a + b)[..|a + b| - 1] == a + b[..|b| - 1];
      SerializedAppend(a, b[..|b| - 1]);
    }
  }

  lemma OneSerialized(r: Record)
    ensures Serialized([r]) == SerializedOne(r)
  {
    assert [r][..0] == [];
  }

  lemma AroundLists(own: Option<Record>, others: seq<Record>)
    ensures ListsAll(Arr(SerializedOption(own) + Serialized(others)), Around(own, others, true))
    ensures ListsAll(Arr(Serialized(others) + SerializedOption(own)), Around(own, others, false))
  {
    hide Serialized, ListsAll;
    SerializedLists(Around(own, others, true));
    SerializedLists(Around(own, others, false));
    if own.Some? {
      OneSerialized(own.value);
      SerializedAppend([own.value], others);
      SerializedAppend(others, [own.value]);
    } else {
      assert [] + Serialized(others) == Serialized(others) == Serialized(others) + [];
    }
  }

  lemma QueryDocuments(sdk: Sdk, kind: string, callsign: string)
    ensures IsQuery(kind) <==> QueryResult(sdk, kind, callsign).Some?
    ensures IsQuery(kind) ==> Documents(sdk, kind, callsign, QueryResult(sdk, kind, callsign).value)
  {
    hide ListsAll, ListsOne, Serialized, Around, SerializedOption, Snapshot;
    SerializedLists(sdk.plans);
    SerializedLists(sdk.targets);
    SerializedLists(sdk.sectorElements);
    SerializedLists(sdk.channels);
    AroundLists(sdk.myself, sdk.controllers);
    SelectedLists(sdk.selectedPlan);
    SelectedLists(sdk.selectedTarget);
    SnapshotFields(sdk);
  }

  lemma SelectedLists(r: Option<Record>)
    ensures ListsOne(Arr(SerializedOption(r)), r)
  {
  }

  lemma ActionReplies(sdk: Sdk, id: string, kind: string, callsign: string)
    ensures var m := ActionReply(sdk, id, kind, callsign);
            if callsign == "" && "set_" <= kind && kind != "set_asel" then
              m == Refusal(id, "Missing 'callsign' for setter operation")
            else if kind in ACTIONS then Ended(sdk.action, id, m)
            else m == Refusal(id, "Unknown message type: " + kind)
  {
    hide ACTIONS;
    assert |"Unknown message type: " + kind| > 0 && |"Missing 'callsign' for setter operation"| > 0;
  }

  // Whatever the SDK says, every request is answered as its own fields say.
  lemma AnsweredReplies(sdk: Sdk, payload: Payload)
    ensures Answered(sdk, payload).None? <==> payload.Malformed?
    ensures payload.Parsed? && !payload.j.Obj? ==>
              Answered(sdk, payload) == Some(Refusal("", "Invalid request: expected a JSON object"))
    ensures payload.Parsed? && payload.j.Obj? ==> Replies(sdk, payload.j.fields, Answered(sdk, payload).value)
  {
    hide QueryResult, ActionReply, Documents, IsQuery, ACTIONS;
    assert |"Invalid request: expected a JSON object"| > 0 && |"Missing 'type' field"| > 0;
    if payload.Parsed? && payload.j.Obj? && StrField(payload.j, TYPE).Some? {
      var j := payload.j;
      assert CallsignOf(j) == Callsign(j.fields);
      QueryDocuments(sdk, StrField(j, TYPE).value, CallsignOf(j));
      ActionReplies(sdk, OrEmpty(StrField(j, ID)), StrField(j, TYPE).value, CallsignOf(j));
    }
  }

  // ----- the loops of the source -----

  // One cursor walk: SelectFirst, then SelectNext until the object is not valid.
  method CollectRecords(records: seq<Record>) returns (result: seq<Json>)
    ensures result == Serialized(records)
  {
    result := [];
    var i := 0;
    while i < |records|
      invariant 0 <= i <= |records|
      invariant result == Serialized(records[..i])
    {
      if records[i].json.Some? {
        result := result + [records[i].json.value];
      }
      assert records[..i + 1][..i] == records[..i];
      i := i + 1;
    }
    assert records[..i] == records;
  }

  method CollectOne(r: Option<Record>) returns (result: seq<Json>)
    ensures result == SerializedOption(r)
  {
    result := [];
    if r.Some? && r.value.json.Some? {
      result := [r.value.json.value];
    }
  }

  method RunQuery(sdk: Sdk, kind: string, callsign: string) returns (result: Option<Json>)
    ensures result == QueryResult(sdk, kind, callsign)
    ensures result.Some? <==> IsQuery(kind)
    ensures result.Some? ==> Documents(sdk, kind, callsign, result.value)
  {
    QueryDocuments(sdk, kind, callsign);
    hide Documents, IsQuery;
    if kind == "get_flightplans" {
      var items;
      if callsign != "" { items := CollectOne(sdk.selectedPlan); } else { items := CollectRecords(sdk.plans); }
      return Some(Arr(items));
    }
    if kind == "get_radar_targets" {
      var items;
      if callsign != "" { items := CollectOne(sdk.selectedTarget); } else { items := CollectRecords(sdk.targets); }
      return Some(Arr(items));
    }
    if kind == "get_controllers" {
      var self := CollectOne(sdk.myself);
      var others := CollectRecords(sdk.controllers);
      return Some(Arr(self + others));
    }
    if kind == "get_sector_elements" {
      var items := CollectRecords(sdk.sectorElements);
      return Some(Arr(items));
    }
    if kind == "get_voice_channels" {
      var items := CollectRecords(sdk.channels);
      return Some(Arr(items));
    }
    if kind == "get_transition_altitude" {
      return Some(Obj(map["transition_altitude" := Number(sdk.transitionAltitude as real)]));
    }
    if kind == "get_connection_type" {
      return Some(Obj(map["connection_type" := Number(sdk.connectionType as real)]));
    }
    if kind == "get_full_snapshot" {
      var plans := CollectRecords(sdk.plans);
      var targets := CollectRecords(sdk.targets);
      var controllers := CollectRecords(sdk.controllers);
      var self := CollectOne(sdk.myself);
      return Some(Obj(map["flightplans" := Arr(plans), "radar_targets" := Arr(targets),
                          "controllers" := Arr(controllers + self)]));
    }
    return None;
  }

  method HandleRequest(sdk: Sdk, payload: Payload) returns (reply: Option<Message>)
    ensures reply == Answered(sdk, payload)
    ensures reply.None? <==> payload.Malformed?
    ensures payload.Parsed? && !payload.j.Obj? ==> reply == Some(Refusal("", "Invalid request: expected a JSON object"))
    ensures payload.Parsed? && payload.j.Obj? ==> reply.Some? && Replies(sdk, payload.j.fields, reply.value)
  {
    AnsweredReplies(sdk, payload);
    hide Replies;
    if payload.Malformed? { return None; }
    if !payload.j.Obj? { return Some(MakeError("", "Invalid request: expected a JSON object")); }
    var id := OrEmpty(StrField(payload.j, ID));
    var kind := StrField(payload.j, TYPE);
    if kind.None? { return Some(MakeError(id, "Missing 'type' field")); }
    var callsign := CallsignOf(payload.j);
    var found := RunQuery(sdk, kind.value, callsign);
    if found.Some? { return Some(MakeSuccess(id, GoodText(found.value))); }
    return Some(ActionReply(sdk, id, kind.value, callsign));
  }

  // ----- properties -----

  lemma ActionReplyCoherent(sdk: Sdk, id: string, kind: string, callsign: string)
    ensures var m := ActionReply(sdk, id, kind, callsign);
            m.Response? && Coherent(m) && m.events.None? && m.id == id && (m.result.Some? ==> m.success)
  {
    hide ACTIONS;
    assert |"Unknown message type: " + kind| > 0 && |"Missing 'callsign' for setter operation"| > 0;
    assert |"Failed to serialize result"| > 0;
  }

  lemma EveryReplyIsCoherent(sdk: Sdk, payload: Payload)
    ensures Answered(sdk, payload).None? <==> payload.Malformed?
    ensures payload.Parsed? ==>
              var m := Answered(sdk, payload).value;
              && m.Response? && Coherent(m) && m.events.None?
              && (m.result.Some? ==> m.success)
              && m.id == OrEmpty(StrField(payload.j, ID))
  {
    hide ActionReply, QueryResult;
    assert |"Invalid request: expected a JSON object"| > 0 && |"Missing 'type' field"| > 0;
    if payload.Parsed? && payload.j.Obj? && StrField(payload.j, TYPE).Some? {
      var j := payload.j;
      ActionReplyCoherent(sdk, OrEmpty(StrField(j, ID)), StrField(j, TYPE).value, CallsignOf(j));
    }
  }

  // `Serialized` keeps exactly the records that serialize, in order: the k-th document comes
  // from the record with k serializable ones before it.
  lemma {:induction false} SerializedIsFilterMap(records: seq<Record>, i: nat)
    requires i < |records| && records[i].json.Some?
    ensures |Serialized(records[..i])| < |Serialized(records)|
    ensures Serialized(records)[|Serialized(records[..i])|] == records[i].json.value
    decreases |records|
  {
    var front := records[..|records| - 1];
    if i < |front| {
      SerializedIsFilterMap(front, i);
      assert front[..i] == records[..i];
    } else {
      assert records[..i] == front;
    }
  }

  lemma {:induction false} SerializedCount(records: seq<Record>)
    ensures |Serialized(records)| == |set i | 0 <= i < |records| && records[i].json.Some?|
    decreases |records|
  {
    if records == [] {
    } else {
      var front := records[..|records| - 1];
      SerializedCount(front);
      OneMoreSerializable(records);
    }
  }

  lemma OneMoreSerializable(records: seq<Record>)
    requires records != []
    ensures var front := records[..|records| - 1];
            |set i | 0 <= i < |records| && records[i].json.Some?| ==
            |set i | 0 <= i < |front| && front[i].json.Some?| + if records[|front|].json.Some? then 1 else 0
  {
    var front := records[..|records| - 1];
    var before := set i | 0 <= i < |front| && front[i].json.Some?;
    var after := set i | 0 <= i < |records| && records[i].json.Some?;
    assert after == if records[|front|].json.Some? then before + {|front|} else before;
  }

  // A request of this kind for everything, not for one callsign.
  predicate Asks(j: Json, kind: string) {
    j.Obj? && CallsignOf(j) == "" && StrField(j, TYPE) == Some(kind)
  }

  lemma QueryAnswered(sdk: Sdk, j: Json, kind: string)
    requires Asks(j, kind) && QueryResult(sdk, kind, "").Some?
    ensures Answered(sdk, Parsed(j)).Some? && Answered(sdk, Parsed(j)).value.Response?
    ensures Answered(sdk, Parsed(j)).value.result == QueryResult(sdk, kind, "")
    ensures Documents(sdk, kind, "", Answered(sdk, Parsed(j)).value.result.value)
  {
    hide QueryResult, ActionReply, Documents;
    QueryDocuments(sdk, kind, "");
  }

  // The result a request of one of the four kinds gets.
  function ResultFor(sdk: Sdk, j: Json): Json {
    var reply := Answered(sdk, Parsed(j));
    if reply.Some? && reply.value.Response? && reply.value.result.Some? then reply.value.result.value else Null
  }

  // The full snapshot lists the plans and targets of the separate queries, and the same
  // controllers: a permutation, because it puts the own position last instead of first.
  lemma SnapshotAgrees(sdk: Sdk, snap: Json, plans: Json, targets: Json, controllers: Json)
    requires Asks(snap, "get_full_snapshot") && Asks(plans, "get_flightplans")
    requires Asks(targets, "get_radar_targets") && Asks(controllers, "get_controllers")
    ensures var all, c := ResultFor(sdk, snap), ResultFor(sdk, controllers);
            && all.Obj? && all.fields.Keys == {"flightplans", "radar_targets", "controllers"}
            && all.fields["flightplans"] == ResultFor(sdk, plans)
            && all.fields["radar_targets"] == ResultFor(sdk, targets)
            && c.Arr? && all.fields["controllers"].Arr?
            && multiset(all.fields["controllers"].items) == multiset(c.items)
  {
    QueryAnswered(sdk, snap, "get_full_snapshot");
    QueryAnswered(sdk, plans, "get_flightplans");
    QueryAnswered(sdk, targets, "get_radar_targets");
    QueryAnswered(sdk, controllers, "get_controllers");
    SnapshotFields(sdk);
    hide Answered, Asks, Snapshot;
  }

  lemma SnapshotFields(sdk: Sdk)
    ensures Snapshot(sdk).Obj?
    ensures var all := Snapshot(sdk).fields;
            && all.Keys == {"flightplans", "radar_targets", "controllers"}
            && all["flightplans"] == Arr(Serialized(sdk.plans))
            && all["radar_targets"] == Arr(Serialized(sdk.targets))
            && all["controllers"] == Arr(Serialized(sdk.controllers) + SerializedOption(sdk.myself))
  {
    assert "flightplans"[0] == 'f' && "radar_targets"[0] == 'r' && "controllers"[0] == 'c';
  }

  // What the wiki documents as clearing an estimation is refused whatever the SDK would do.
  lemma ClearEstimationIsUnknown(sdk: Sdk, req: Json)
    requires req.Obj? && StrField(req, TYPE) == Some("clear_estimation")
    ensures Answered(sdk, Parsed(req)) ==
            Some(Response(OrEmpty(StrField(req, ID)), false, None, "Unknown message type: clear_estimation", None))
  {
    hide QueryResult, ACTIONS;
    var kind := "clear_estimation";
    NotAQuery(sdk, CallsignOf(req));
    NotAnAction();
    assert "Unknown message type: " + kind == "Unknown message type: clear_estimation";
    assert |"Unknown message type: " + kind| > 0;
    assert kind[0] == 'c' && "set_"[0] == 's';
  }

  lemma NotAQuery(sdk: Sdk, callsign: string)
    ensures QueryResult(sdk, "clear_estimation", callsign).None?
  {
    assert "clear_estimation"[0] == 'c' && "get_flightplans"[0] == 'g';
  }

  lemma NotAnAction()
    ensures "clear_estimation" !in ACTIONS
  {
    forall a | a in ACTIONS
      ensures a != "clear_estimation"
    {
      assert |a| == 16 ==> a[1] != 'l';
    }
  }
}

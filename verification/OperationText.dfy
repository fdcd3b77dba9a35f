/**
 The operation and snapshot names a status readback searches for in a command's documents. The
 first name found is turned into an enumeration value, and an unknown name fails the readback.
 */
module OperationText {
  import opened Wrappers
  import opened CommandModel
  import opened Json

  /** The normalized payload, the latest attempt's metadata and the command's result summary;
      a missing document is `Null`. */
  datatype Documents = Documents(payload: Value, attempt: Value, summary: Value)

  /** A field of one artifact. */
  datatype Place = Place(artifact: string, field: string)

  const RELAY_OPERATION: seq<Place> := [
    Place("runtime_relay_control_execution", "relay_operation"),
    Place("relay_control_execute_now", "relay_control_operation"),
    Place("relay_control_execution_orchestration", "relay_control_operation"),
    Place("relay_control_runtime_terminalization", "relay_control_operation")]

  const READ_OPERATION: seq<Place> := [
    Place("runtime_on_demand_read_execution", "on_demand_read_operation"),
    Place("on_demand_read_execute_now", "on_demand_read_operation"),
    Place("on_demand_read_execution_orchestration", "on_demand_read_operation"),
    Place("on_demand_read_runtime_terminalization", "on_demand_read_operation")]

  const SNAPSHOT: seq<Place> := [
    Place("runtime_on_demand_read_execution", "snapshot_type"),
    Place("on_demand_read_execute_now", "snapshot_type"),
    Place("on_demand_read_execution_orchestration", "snapshot_type"),
    Place("on_demand_read_runtime_terminalization", "snapshot_type")]

  const RELAY_NAMES: set<string> := {"disconnect", "reconnect"}
  const READ_NAMES: set<string> := {"read_billing_snapshot"}
  const SNAPSHOT_NAMES: set<string> := {"billing", "instantaneous", "nameplate", "clock", "diagnostics"}

  function ObjectAt(v: Value, key: string): Option<Value> {
    if Member(v, key).Some? && Member(v, key).value.Object? then Member(v, key) else None
  }

  function NonEmptyAt(v: Value, key: string): Option<string> {
    if TextAt(v, key).Some? && TextAt(v, key).value != "" then TextAt(v, key) else None
  }

  /** The attempt's copy of an artifact, or else the command's. */
  function Artifact(d: Documents, key: string): Option<Value> {
    if ObjectAt(d.attempt, key).Some? then ObjectAt(d.attempt, key) else ObjectAt(d.summary, key)
  }

  function TextIn(d: Documents, p: Place): Option<string> {
    var a := Artifact(d, p.artifact);
    if a.Some? then NonEmptyAt(a.value, p.field) else None
  }

  function FirstText(d: Documents, places: seq<Place>): Option<string> {
    if places == [] then None
    else if TextIn(d, places[0]).Some? then TextIn(d, places[0])
    else FirstText(d, places[1..])
  }

  /** The name found in the artifacts, or else the payload's. */
  function Resolve(d: Documents, places: seq<Place>, fallback: Option<string>): Option<string> {
    if FirstText(d, places).Some? then FirstText(d, places) else fallback
  }

  function PayloadSnapshot(payload: Value): Option<string> {
    var read := ObjectAt(payload, "on_demand_read");
    if read.Some? then NonEmptyAt(read.value, "snapshot_type") else None
  }

  function RelayOperation(d: Documents): Option<string> {
    Resolve(d, RELAY_OPERATION, NonEmptyAt(d.payload, "relay_control_operation"))
  }

  function ReadOperation(d: Documents): Option<string> {
    Resolve(d, READ_OPERATION, NonEmptyAt(d.payload, "on_demand_read_operation"))
  }

  function SnapshotType(d: Documents): Option<string> {
    Resolve(d, SNAPSHOT, PayloadSnapshot(d.payload))
  }

  predicate Known(name: Option<string>, names: set<string>) {
    name.Some? ==> name.value in names
  }

  /** Does the readback of this category's family build its enumeration values? */
  predicate Readable(category: Category, d: Documents) {
    match category
    case RemoteDisconnect => Known(RelayOperation(d), RELAY_NAMES)
    case RemoteReconnect => Known(RelayOperation(d), RELAY_NAMES)
    case OnDemandReading => Known(ReadOperation(d), READ_NAMES) && Known(SnapshotType(d), SNAPSHOT_NAMES)
    case _ => true
  }

  /** The name comes from the first place that holds one. */
  lemma {:induction false} FirstTextExactly(d: Documents, places: seq<Place>, t: string)
    ensures FirstText(d, places) == Some(t)
            <==> exists i :: 0 <= i < |places| && TextIn(d, places[i]) == Some(t)
                             && forall j :: 0 <= j < i ==> TextIn(d, places[j]).None?
    ensures FirstText(d, places).None? <==> forall i :: 0 <= i < |places| ==> TextIn(d, places[i]).None?
  {
    if places != [] && TextIn(d, places[0]).None? {
      var rest := places[1..];
      FirstTextExactly(d, rest, t);
      if FirstText(d, rest) == Some(t) {
        var i :| 0 <= i < |rest| && TextIn(d, rest[i]) == Some(t)
                 && forall j :: 0 <= j < i ==> TextIn(d, rest[j]).None?;
        forall j | 0 <= j < i + 1 ensures TextIn(d, places[j]).None? {
          if j > 0 { assert places[j] == rest[j - 1]; }
        }
        assert places[i + 1] == rest[i];
      }
      if i :| 0 <= i < |places| && TextIn(d, places[i]) == Some(t)
              && forall j :: 0 <= j < i ==> TextIn(d, places[j]).None? {
        assert rest[i - 1] == places[i];
        assert forall j :: 0 <= j < i - 1 ==> rest[j] == places[j + 1];
      }
      assert forall i :: 0 <= i < |rest| ==> rest[i] == places[i + 1];
      assert forall i :: 0 < i < |places| ==> places[i] == rest[i - 1];
    }
  }

  /** The lookup fails exactly when the first name stored anywhere is an unknown one. */
  lemma UnknownExactly(d: Documents, places: seq<Place>, fallback: Option<string>, names: set<string>)
    ensures !Known(Resolve(d, places, fallback), names)
            <==> || (exists i :: 0 <= i < |places| && TextIn(d, places[i]).Some? && TextIn(d, places[i]).value !in names
                                 && forall j :: 0 <= j < i ==> TextIn(d, places[j]).None?)
                 || ((forall i :: 0 <= i < |places| ==> TextIn(d, places[i]).None?)
                     && fallback.Some? && fallback.value !in names)
  {
    hide TextIn;
    FirstTextExactly(d, places, if FirstText(d, places).Some? then FirstText(d, places).value else "");
    forall i | 0 <= i < |places| && TextIn(d, places[i]).Some? && forall j :: 0 <= j < i ==> TextIn(d, places[j]).None?
      ensures FirstText(d, places) == TextIn(d, places[i])
    {
      FirstTextExactly(d, places, TextIn(d, places[i]).value);
    }
  }

  /** A command that has run nothing yet is readable exactly when its payload names nothing
      unknown. */
  lemma UnstartedExactly(category: Category, payload: Value)
    ensures var d := Documents(payload, Null, Null);
            Readable(category, d) <==>
              match category
              case OnDemandReading => Known(NonEmptyAt(payload, "on_demand_read_operation"), READ_NAMES)
                                      && Known(PayloadSnapshot(payload), SNAPSHOT_NAMES)
              case RemoteDisconnect => Known(NonEmptyAt(payload, "relay_control_operation"), RELAY_NAMES)
              case RemoteReconnect => Known(NonEmptyAt(payload, "relay_control_operation"), RELAY_NAMES)
              case _ => true
  {
    var d := Documents(payload, Null, Null);
    FirstTextExactly(d, RELAY_OPERATION, "");
    FirstTextExactly(d, READ_OPERATION, "");
    FirstTextExactly(d, SNAPSHOT, "");
  }

  // ---- where the names come from, in terms of the stored documents ----

  ghost predicate HasObject(v: Value, key: string) {
    v.Object? && key in v.fields && v.fields[key].Object?
  }

  /** This field of the object holds this text, and it is not empty. */
  ghost predicate Says(v: Value, field: string, t: string) {
    v.Object? && field in v.fields && v.fields[field] == Text(t) && t != ""
  }

  /** The artifact on the attempt says so, or the one on the command if the attempt has none. */
  ghost predicate SaidIn(d: Documents, artifact: string, field: string, t: string) {
    if HasObject(d.attempt, artifact) then Says(d.attempt.fields[artifact], field, t)
    else HasObject(d.summary, artifact) && Says(d.summary.fields[artifact], field, t)
  }

  ghost predicate Silent(d: Documents, artifact: string, field: string) {
    forall t :: !SaidIn(d, artifact, field, t)
  }

  /** One of the four artifacts says so and the ones before it say nothing. */
  ghost predicate FirstSaid(d: Documents, artifacts: seq<string>, fields: seq<string>, t: string)
    requires |artifacts| == |fields|
  {
    exists i :: 0 <= i < |artifacts| && SaidIn(d, artifacts[i], fields[i], t)
                && forall j :: 0 <= j < i ==> Silent(d, artifacts[j], fields[j])
  }

  ghost predicate NothingSaid(d: Documents, artifacts: seq<string>, fields: seq<string>)
    requires |artifacts| == |fields|
  {
    forall i :: 0 <= i < |artifacts| ==> Silent(d, artifacts[i], fields[i])
  }

  lemma TextInExactly(d: Documents, p: Place)
    ensures forall t :: TextIn(d, p) == Some(t) <==> SaidIn(d, p.artifact, p.field, t)
    ensures TextIn(d, p).None? <==> Silent(d, p.artifact, p.field)
  {
    assert TextIn(d, p).Some? ==> SaidIn(d, p.artifact, p.field, TextIn(d, p).value);
  }

  lemma ResolveExactly(d: Documents, places: seq<Place>, artifacts: seq<string>, fields: seq<string>,
      fallback: Option<string>, t: string)
    requires |artifacts| == |fields| == |places|
    requires forall i :: 0 <= i < |places| ==> places[i] == Place(artifacts[i], fields[i])
    ensures Resolve(d, places, fallback) == Some(t)
            <==> FirstSaid(d, artifacts, fields, t) || (NothingSaid(d, artifacts, fields) && fallback == Some(t))
  {
    hide TextIn, SaidIn, Silent;
    forall i | 0 <= i < |places|
      ensures forall u :: TextIn(d, places[i]) == Some(u) <==> SaidIn(d, artifacts[i], fields[i], u)
      ensures TextIn(d, places[i]).None? <==> Silent(d, artifacts[i], fields[i])
    {
      TextInExactly(d, places[i]);
    }
    FirstTextExactly(d, places, t);
    SaidFirst(d, places, artifacts, fields, t);
    if FirstText(d, places).Some? {
      FirstTextExactly(d, places, FirstText(d, places).value);
    }
  }

  lemma SaidFirst(d: Documents, places: seq<Place>, artifacts: seq<string>, fields: seq<string>, t: string)
    requires |artifacts| == |fields| == |places|
    requires forall i :: 0 <= i < |places| ==>
               && (TextIn(d, places[i]) == Some(t) <==> SaidIn(d, artifacts[i], fields[i], t))
               && (TextIn(d, places[i]).None? <==> Silent(d, artifacts[i], fields[i]))
    ensures FirstText(d, places) == Some(t) <==> FirstSaid(d, artifacts, fields, t)
  {
    hide TextIn, SaidIn, Silent;
    FirstTextExactly(d, places, t);
    if FirstText(d, places) == Some(t) {
      var i :| 0 <= i < |places| && TextIn(d, places[i]) == Some(t)
               && forall j :: 0 <= j < i ==> TextIn(d, places[j]).None?;
      assert SaidIn(d, artifacts[i], fields[i], t);
    }
    if FirstSaid(d, artifacts, fields, t) {
      var i :| 0 <= i < |artifacts| && SaidIn(d, artifacts[i], fields[i], t)
               && forall j :: 0 <= j < i ==> Silent(d, artifacts[j], fields[j]);
      assert TextIn(d, places[i]) == Some(t);
    }
  }

  lemma RelayOperationExactly(d: Documents, t: string)
    ensures var artifacts := ["runtime_relay_control_execution", "relay_control_execute_now",
                              "relay_control_execution_orchestration", "relay_control_runtime_terminalization"];
            var fields :=
              ["relay_operation", "relay_control_operation", "relay_control_operation", "relay_control_operation"];
            RelayOperation(d) == Some(t)
            <==> || FirstSaid(d, artifacts, fields, t)
                 || (NothingSaid(d, artifacts, fields) && Says(d.payload, "relay_control_operation", t))
  {
    var artifacts := ["runtime_relay_control_execution", "relay_control_execute_now",
                      "relay_control_execution_orchestration", "relay_control_runtime_terminalization"];
    var fields := ["relay_operation", "relay_control_operation", "relay_control_operation", "relay_control_operation"];
    hide Resolve, FirstSaid, NothingSaid;
    ResolveExactly(d, RELAY_OPERATION, artifacts, fields, NonEmptyAt(d.payload, "relay_control_operation"), t);
  }

  lemma ReadOperationExactly(d: Documents, t: string)
    ensures var artifacts := ["runtime_on_demand_read_execution", "on_demand_read_execute_now",
                              "on_demand_read_execution_orchestration", "on_demand_read_runtime_terminalization"];
            var field := "on_demand_read_operation";
            ReadOperation(d) == Some(t)
            <==> || FirstSaid(d, artifacts, [field, field, field, field], t)
                 || (NothingSaid(d, artifacts, [field, field, field, field]) && Says(d.payload, field, t))
  {
    var artifacts := ["runtime_on_demand_read_execution", "on_demand_read_execute_now",
                      "on_demand_read_execution_orchestration", "on_demand_read_runtime_terminalization"];
    var field := "on_demand_read_operation";
    hide Resolve, FirstSaid, NothingSaid;
    ResolveExactly(d, READ_OPERATION, artifacts, [field, field, field, field], NonEmptyAt(d.payload, field), t);
  }

  lemma SnapshotTypeExactly(d: Documents, t: string)
    ensures var artifacts := ["runtime_on_demand_read_execution", "on_demand_read_execute_now",
                              "on_demand_read_execution_orchestration", "on_demand_read_runtime_terminalization"];
            var field := "snapshot_type";
            SnapshotType(d) == Some(t)
            <==> || FirstSaid(d, artifacts, [field, field, field, field], t)
                 || (NothingSaid(d, artifacts, [field, field, field, field])
                     && HasObject(d.payload, "on_demand_read") && Says(d.payload.fields["on_demand_read"], field, t))
  {
    var artifacts := ["runtime_on_demand_read_execution", "on_demand_read_execute_now",
                      "on_demand_read_execution_orchestration", "on_demand_read_runtime_terminalization"];
    var field := "snapshot_type";
    hide Resolve, FirstSaid, NothingSaid;
    ResolveExactly(d, SNAPSHOT, artifacts, [field, field, field, field], PayloadSnapshot(d.payload), t);
  }

  /** Which names are known. */
  lemma ReadableExactly(category: Category, d: Documents)
    ensures Readable(category, d) <==>
              && (category == RemoteDisconnect || category == RemoteReconnect ==>
                    RelayOperation(d) in {None, Some("disconnect"), Some("reconnect")})
              && (category == OnDemandReading ==>
                    && ReadOperation(d) in {None, Some("read_billing_snapshot")}
                    && SnapshotType(d) in {None, Some("billing"), Some("instantaneous"), Some("nameplate"),
                                           Some("clock"), Some("diagnostics")})
  {
  }
}

/**
 * One poll of the gateway (custom_components/a_tfa_me_1/coordinator.py): the `/sensors`
 * document is turned into a map from entity key to measurement record, and a failed poll is
 * classified as "not ready" or "update failed" by the success counter `first_init`.
 * The HTTP request and host resolution are replaced by a `FetchResult` input.
 */
module Coordinator {
  import opened Wrappers
  import opened Values

  // ---- The decoded `/sensors` document; None marks a key that is absent ----

  datatype MeasurementObj = MeasurementObj(value: Option<Scalar>, unit: Option<string>)

  datatype SensorObj = SensorObj(
    sensorId: Option<string>,
    name: Option<string>,
    timestamp: Option<string>,
    /** The `measurements` object as (name, values) pairs in document order. */
    measurements: Option<seq<(string, MeasurementObj)>>)

  datatype Document = Document(sensors: Option<seq<SensorObj>>)

  /** One entry of the parsed map: exactly the six fields the poll writes. */
  datatype Record = Record(
    sensorId: string,
    sensorName: string,
    measurement: string,
    value: Scalar,
    unit: string,
    timestamp: string)

  type Snapshot = map<string, Record>

  /** The entity key `sensor.<sensor_id>_<measurement>`. */
  function EntityKey(sensorId: string, measurement: string): string {
    "sensor." + sensorId + "_" + measurement
  }

  function Measurements(s: SensorObj): seq<(string, MeasurementObj)> {
    s.measurements.GetOr([])
  }

  // ---- Specification of the parse loop ----

  /** The record for one measurement; None where a key lookup raises KeyError. */
  function MakeRecord(sensorId: string, s: SensorObj, measurement: string, m: MeasurementObj): Option<Record> {
    if s.name.None? || m.value.None? || m.unit.None? then None
    else Some(Record(sensorId, s.name.value, measurement, m.value.value, m.unit.value, s.timestamp.GetOr("unknown")))
  }

  /** The inner loop: stores each measurement's record under its key, in order. */
  function AddMeasurements(acc: Snapshot, sensorId: string, s: SensorObj, ms: seq<(string, MeasurementObj)>): Option<Snapshot>
    decreases |ms|
  {
    if ms == [] then Some(acc)
    else
      match MakeRecord(sensorId, s, ms[0].0, ms[0].1)
      case None => None
      case Some(rec) => AddMeasurements(acc[EntityKey(sensorId, ms[0].0) := rec], sensorId, s, ms[1..])
  }

  /** One pass of the outer loop: `sensor["sensor_id"]` is read before any measurement. */
  function AddSensor(acc: Snapshot, s: SensorObj): Option<Snapshot> {
    if s.sensorId.None? then None else AddMeasurements(acc, s.sensorId.value, s, Measurements(s))
  }

  /** The outer loop over the remaining sensors, starting from the map built so far. */
  function ParseFrom(acc: Snapshot, ss: seq<SensorObj>): Option<Snapshot>
    decreases |ss|
  {
    if ss == [] then Some(acc)
    else
      match AddSensor(acc, ss[0])
      case None => None
      case Some(next) => ParseFrom(next, ss[1..])
  }

  /** The whole parse: from an empty map, over `sensors` (an absent array is an empty one). */
  function ParseDocument(doc: Document): Option<Snapshot> {
    ParseFrom(map[], doc.sensors.GetOr([]))
  }

  /** The parse loop of `_async_update_data`; None where the source raises. */
  method ParseSensors(doc: Document) returns (parsed: Option<Snapshot>)
    ensures parsed == ParseDocument(doc)
  {
    var acc: Snapshot := map[];
    var sensors := doc.sensors.GetOr([]);
    var i := 0;
    while i < |sensors|
      invariant 0 <= i <= |sensors|
      invariant ParseFrom(acc, sensors[i..]) == ParseDocument(doc)
    {
      var sensor := sensors[i];
      assert sensors[i..][1..] == sensors[i + 1..];
      if sensor.sensorId.None? {
        return None;
      }
      var sensorId := sensor.sensorId.value;
      var ms := Measurements(sensor);
      ghost var before := acc;
      var j := 0;
      while j < |ms|
        invariant 0 <= j <= |ms|
        invariant AddMeasurements(acc, sensorId, sensor, ms[j..]) == AddSensor(before, sensor)
      {
        var (measurement, values) := ms[j];
        assert ms[j..][1..] == ms[j + 1..];
        var key := EntityKey(sensorId, measurement);
        if sensor.name.None? || values.value.None? || values.unit.None? {
          return None;
        }
        acc := acc[key := Record(sensorId, sensor.name.value, measurement, values.value.value,
                                 values.unit.value, sensor.timestamp.GetOr("unknown"))];
        j := j + 1;
      }
      i := i + 1;
    }
    return Some(acc);
  }

  // ---- Properties of the parse ----

  function MeasurementKeys(sensorId: string, ms: seq<(string, MeasurementObj)>): set<string>
    decreases |ms|
  {
    if ms == [] then {} else {EntityKey(sensorId, ms[0].0)} + MeasurementKeys(sensorId, ms[1..])
  }

  /** The keys a sensor contributes: one per measurement (none without a sensor id). */
  function SensorKeys(s: SensorObj): set<string> {
    if s.sensorId.None? then {} else MeasurementKeys(s.sensorId.value, Measurements(s))
  }

  function ProducedKeys(ss: seq<SensorObj>): set<string>
    decreases |ss|
  {
    if ss == [] then {} else SensorKeys(ss[0]) + ProducedKeys(ss[1..])
  }

  /** Every record is stored under the key built from its own sensor id and measurement. */
  ghost predicate Filed(m: Snapshot) {
    forall k :: k in m ==> EntityKey(m[k].sensorId, m[k].measurement) == k
  }

  predicate MeasurementBroken(s: SensorObj, m: MeasurementObj) {
    s.name.None? || m.value.None? || m.unit.None?
  }

  /** A sensor the parse cannot get through: no id, or a measurement missing a field it reads. */
  ghost predicate SensorBroken(s: SensorObj) {
    s.sensorId.None? || exists j :: 0 <= j < |Measurements(s)| && MeasurementBroken(s, Measurements(s)[j].1)
  }

  lemma {:induction false} AddMeasurementsKeys(acc: Snapshot, sensorId: string, s: SensorObj, ms: seq<(string, MeasurementObj)>)
    requires AddMeasurements(acc, sensorId, s, ms).Some?
    ensures AddMeasurements(acc, sensorId, s, ms).value.Keys == acc.Keys + MeasurementKeys(sensorId, ms)
    ensures Filed(acc) ==> Filed(AddMeasurements(acc, sensorId, s, ms).value)
    decreases |ms|
  {
    if ms != [] {
      var rec := MakeRecord(sensorId, s, ms[0].0, ms[0].1).value;
      AddMeasurementsKeys(acc[EntityKey(sensorId, ms[0].0) := rec], sensorId, s, ms[1..]);
    }
  }

  /** A successful parse holds exactly the keys of this document, each record under its own key. */
  lemma {:induction false} ParseFromKeys(acc: Snapshot, ss: seq<SensorObj>)
    requires ParseFrom(acc, ss).Some?
    ensures ParseFrom(acc, ss).value.Keys == acc.Keys + ProducedKeys(ss)
    ensures Filed(acc) ==> Filed(ParseFrom(acc, ss).value)
    decreases |ss|
  {
    if ss != [] {
      var next := AddSensor(acc, ss[0]).value;
      if ss[0].sensorId.Some? {
        AddMeasurementsKeys(acc, ss[0].sensorId.value, ss[0], Measurements(ss[0]));
      }
      ParseFromKeys(next, ss[1..]);
    }
  }

  /** A poll's map holds exactly the keys its document produces and nothing from earlier polls. */
  lemma ParseDocumentKeys(doc: Document)
    requires ParseDocument(doc).Some?
    ensures ParseDocument(doc).value.Keys == ProducedKeys(doc.sensors.GetOr([]))
    ensures Filed(ParseDocument(doc).value)
  {
    ParseFromKeys(map[], doc.sensors.GetOr([]));
  }

  lemma {:induction false} AddMeasurementsFails(acc: Snapshot, sensorId: string, s: SensorObj, ms: seq<(string, MeasurementObj)>)
    ensures AddMeasurements(acc, sensorId, s, ms).None? <==> exists j :: 0 <= j < |ms| && MeasurementBroken(s, ms[j].1)
    decreases |ms|
  {
    if ms != [] {
      var key := EntityKey(sensorId, ms[0].0);
      if !MeasurementBroken(s, ms[0].1) {
        var rec := MakeRecord(sensorId, s, ms[0].0, ms[0].1).value;
        AddMeasurementsFails(acc[key := rec], sensorId, s, ms[1..]);
        if exists j :: 0 <= j < |ms| && MeasurementBroken(s, ms[j].1) {
          var j :| 0 <= j < |ms| && MeasurementBroken(s, ms[j].1);
          assert ms[1..][j - 1] == ms[j];
        }
        if exists j :: 0 <= j < |ms[1..]| && MeasurementBroken(s, ms[1..][j].1) {
          var j :| 0 <= j < |ms[1..]| && MeasurementBroken(s, ms[1..][j].1);
          assert ms[j + 1] == ms[1..][j];
        }
      }
    }
  }

  lemma {:induction false} ParseFromFails(acc: Snapshot, ss: seq<SensorObj>)
    ensures ParseFrom(acc, ss).None? <==> exists i :: 0 <= i < |ss| && SensorBroken(ss[i])
    decreases |ss|
  {
    if ss != [] {
      if ss[0].sensorId.Some? {
        AddMeasurementsFails(acc, ss[0].sensorId.value, ss[0], Measurements(ss[0]));
      }
      if !SensorBroken(ss[0]) {
        var next := AddSensor(acc, ss[0]).value;
        ParseFromFails(next, ss[1..]);
        if exists i :: 0 <= i < |ss| && SensorBroken(ss[i]) {
          var i :| 0 <= i < |ss| && SensorBroken(ss[i]);
          assert ss[1..][i - 1] == ss[i];
        }
        if exists i :: 0 <= i < |ss[1..]| && SensorBroken(ss[1..][i]) {
          var i :| 0 <= i < |ss[1..]| && SensorBroken(ss[1..][i]);
          assert ss[i + 1] == ss[1..][i];
        }
      }
    }
  }

  /**
   * The poll fails (and yields no partial map) exactly when some sensor lacks `sensor_id`, or
   * has a measurement while lacking `name`, or has a measurement lacking `value` or `unit`.
   */
  lemma ParseDocumentFails(doc: Document)
    ensures ParseDocument(doc).None? <==>
      exists i :: 0 <= i < |doc.sensors.GetOr([])| && SensorBroken(doc.sensors.GetOr([])[i])
  {
    ParseFromFails(map[], doc.sensors.GetOr([]));
  }

  /** Continues a parse result with the map built so far as the new starting point. */
  function Rebase(acc: Snapshot, r: Option<Snapshot>): Option<Snapshot> {
    match r
    case None => None
    case Some(m) => Some(acc + m)
  }

  lemma {:induction false} AddMeasurementsRebase(acc: Snapshot, sensorId: string, s: SensorObj, ms: seq<(string, MeasurementObj)>)
    ensures AddMeasurements(acc, sensorId, s, ms) == Rebase(acc, AddMeasurements(map[], sensorId, s, ms))
    decreases |ms|
  {
    if ms == [] {
      assert acc + map[] == acc;
    } else {
      match MakeRecord(sensorId, s, ms[0].0, ms[0].1) {
        case None =>
        case Some(rec) =>
          var key := EntityKey(sensorId, ms[0].0);
          AddMeasurementsRebase(acc[key := rec], sensorId, s, ms[1..]);
          AddMeasurementsRebase(map[key := rec], sensorId, s, ms[1..]);
          assert map[][key := rec] == map[key := rec];
          match AddMeasurements(map[], sensorId, s, ms[1..]) {
            case None =>
            case Some(m) =>
              assert acc[key := rec] + m == acc + (map[key := rec] + m);
          }
      }
    }
  }

  lemma {:induction false} ParseFromRebase(acc: Snapshot, ss: seq<SensorObj>)
    ensures ParseFrom(acc, ss) == Rebase(acc, ParseFrom(map[], ss))
    decreases |ss|
  {
    if ss == [] {
      assert acc + map[] == acc;
    } else if ss[0].sensorId.Some? {
      var sid := ss[0].sensorId.value;
      AddMeasurementsRebase(acc, sid, ss[0], Measurements(ss[0]));
      match AddMeasurements(map[], sid, ss[0], Measurements(ss[0])) {
        case None =>
        case Some(a) =>
          ParseFromRebase(acc + a, ss[1..]);
          ParseFromRebase(a, ss[1..]);
          match ParseFrom(map[], ss[1..]) {
            case None =>
            case Some(m) =>
              assert (acc + a) + m == acc + (a + m);
          }
      }
    }
  }

  lemma {:induction false} ParseFromConcat(acc: Snapshot, ss1: seq<SensorObj>, ss2: seq<SensorObj>)
    ensures ParseFrom(acc, ss1 + ss2) ==
      (match ParseFrom(acc, ss1) case None => None case Some(m) => ParseFrom(m, ss2))
    decreases |ss1|
  {
    if ss1 == [] {
      assert ss1 + ss2 == ss2;
    } else {
      assert (ss1 + ss2)[1..] == ss1[1..] + ss2;
      match AddSensor(acc, ss1[0]) {
        case None =>
        case Some(next) => ParseFromConcat(next, ss1[1..], ss2);
      }
    }
  }

  /**
   * Parsing two runs of sensors one after the other: the later run's records replace earlier
   * ones with the same key (right-biased map union), and a failure in either run fails all.
   */
  lemma ParseLaterOverwrites(ss1: seq<SensorObj>, ss2: seq<SensorObj>)
    ensures ParseFrom(map[], ss1 + ss2) ==
      (match (ParseFrom(map[], ss1), ParseFrom(map[], ss2))
       case (Some(m1), Some(m2)) => Some(m1 + m2)
       case _ => None)
  {
    ParseFromConcat(map[], ss1, ss2);
    match ParseFrom(map[], ss1) {
      case None =>
      case Some(m1) => ParseFromRebase(m1, ss2);
    }
  }

  /**
   * The record under a key is the one built from the last measurement that writes that key:
   * its `name`, `value`, `unit` and the sensor's `timestamp` ("unknown" when absent).
   */
  lemma {:induction false} AddMeasurementsRecord(acc: Snapshot, sensorId: string, s: SensorObj,
                                                 ms: seq<(string, MeasurementObj)>, j: nat)
    requires AddMeasurements(acc, sensorId, s, ms).Some?
    requires j < |ms| && EntityKey(sensorId, ms[j].0) !in MeasurementKeys(sensorId, ms[j + 1..])
    ensures MakeRecord(sensorId, s, ms[j].0, ms[j].1).Some?
    ensures EntityKey(sensorId, ms[j].0) in AddMeasurements(acc, sensorId, s, ms).value
    ensures AddMeasurements(acc, sensorId, s, ms).value[EntityKey(sensorId, ms[j].0)]
         == MakeRecord(sensorId, s, ms[j].0, ms[j].1).value
    decreases |ms|
  {
    var rec := MakeRecord(sensorId, s, ms[0].0, ms[0].1).value;
    var acc' := acc[EntityKey(sensorId, ms[0].0) := rec];
    if j == 0 {
      AddMeasurementsRebase(acc', sensorId, s, ms[1..]);
      AddMeasurementsKeys(map[], sensorId, s, ms[1..]);
    } else {
      assert ms[1..][j - 1] == ms[j] && ms[1..][j..] == ms[j + 1..];
      AddMeasurementsRecord(acc', sensorId, s, ms[1..], j - 1);
    }
  }

  /** The same over the sensors: no later sensor writes the key, so the record stays. */
  lemma {:induction false} ParseFromRecord(acc: Snapshot, ss: seq<SensorObj>, i: nat, j: nat)
    requires ParseFrom(acc, ss).Some?
    requires i < |ss| && ss[i].sensorId.Some? && j < |Measurements(ss[i])|
    requires EntityKey(ss[i].sensorId.value, Measurements(ss[i])[j].0)
             !in MeasurementKeys(ss[i].sensorId.value, Measurements(ss[i])[j + 1..])
    requires EntityKey(ss[i].sensorId.value, Measurements(ss[i])[j].0) !in ProducedKeys(ss[i + 1..])
    ensures MakeRecord(ss[i].sensorId.value, ss[i], Measurements(ss[i])[j].0, Measurements(ss[i])[j].1).Some?
    ensures EntityKey(ss[i].sensorId.value, Measurements(ss[i])[j].0) in ParseFrom(acc, ss).value
    ensures ParseFrom(acc, ss).value[EntityKey(ss[i].sensorId.value, Measurements(ss[i])[j].0)]
         == MakeRecord(ss[i].sensorId.value, ss[i], Measurements(ss[i])[j].0, Measurements(ss[i])[j].1).value
    decreases |ss|
  {
    var next := AddSensor(acc, ss[0]).value;
    if i == 0 {
      AddMeasurementsRecord(acc, ss[0].sensorId.value, ss[0], Measurements(ss[0]), j);
      ParseFromRebase(next, ss[1..]);
      ParseFromKeys(map[], ss[1..]);
    } else {
      assert ss[1..][i - 1] == ss[i] && ss[1..][i..] == ss[i + 1..];
      ParseFromRecord(next, ss[1..], i - 1, j);
    }
  }

  /**
   * A poll's record for a key is built from the last sensor and measurement of the document
   * that write that key: `sensor_name` from `name`, `value` and `unit` from the measurement,
   * and `timestamp` from the sensor or "unknown".
   */
  lemma ParseDocumentRecord(doc: Document, i: nat, j: nat)
    requires ParseDocument(doc).Some?
    requires i < |doc.sensors.GetOr([])| && doc.sensors.GetOr([])[i].sensorId.Some?
    requires j < |Measurements(doc.sensors.GetOr([])[i])|
    requires EntityKey(doc.sensors.GetOr([])[i].sensorId.value, Measurements(doc.sensors.GetOr([])[i])[j].0)
             !in MeasurementKeys(doc.sensors.GetOr([])[i].sensorId.value, Measurements(doc.sensors.GetOr([])[i])[j + 1..])
    requires EntityKey(doc.sensors.GetOr([])[i].sensorId.value, Measurements(doc.sensors.GetOr([])[i])[j].0)
             !in ProducedKeys(doc.sensors.GetOr([])[i + 1..])
    ensures var s := doc.sensors.GetOr([])[i];
      var m := Measurements(s)[j];
      var key := EntityKey(s.sensorId.value, m.0);
      && key in ParseDocument(doc).value
      && s.name.Some? && m.1.value.Some? && m.1.unit.Some?
      && ParseDocument(doc).value[key] == Record(s.sensorId.value, s.name.value, m.0, m.1.value.value, m.1.unit.value, s.timestamp.GetOr("unknown"))
  {
    ParseFromRecord(map[], doc.sensors.GetOr([]), i, j);
  }

  // ---- One poll and its failure classification ----

  /** What the HTTP layer delivered: no response at all, or a status and the decoded body. */
  datatype FetchResult =
    | Unreachable
    | Response(status: int, body: Option<Document>)

  datatype PollOutcome =
    | Updated(snapshot: Snapshot)
    | NotReady      // ConfigEntryNotReady: setup itself is retried
    | UpdateFailed  // UpdateFailed: the previous data stays

  /** The classification in both `except` handlers (the non-200 UpdateFailed is re-raised here too). */
  function Classify(firstInit: nat): PollOutcome {
    if firstInit == 0 then NotReady else UpdateFailed
  }

  predicate Succeeds(fetch: FetchResult) {
    fetch.Response? && fetch.status == 200 && fetch.body.Some? && ParseDocument(fetch.body.value).Some?
  }

  /** One poll from the counter value `firstInit`: the outcome and the new counter value. */
  function Poll(firstInit: nat, fetch: FetchResult): (r: (PollOutcome, nat))
    ensures r.0.Updated? <==> Succeeds(fetch)
    ensures r.0.Updated? ==> r.0.snapshot == ParseDocument(fetch.body.value).value
    ensures r.0 == NotReady <==> firstInit == 0 && !Succeeds(fetch)
    ensures r.0 == UpdateFailed <==> firstInit != 0 && !Succeeds(fetch)
    ensures firstInit <= r.1 && (firstInit <= 2 ==> r.1 <= 2)
    ensures r.1 != firstInit <==> Succeeds(fetch) && firstInit < 2
    ensures r.1 == if Succeeds(fetch) && firstInit < 2 then firstInit + 1 else firstInit
  {
    if fetch.Unreachable? || fetch.status != 200 || fetch.body.None? then (Classify(firstInit), firstInit)
    else
      match ParseDocument(fetch.body.value)
      case None => (Classify(firstInit), firstInit)
      case Some(m) => (Updated(m), if firstInit < 2 then firstInit + 1 else firstInit)
  }

  /** The outcomes of a series of polls, the counter carried from each to the next. */
  function RunPolls(firstInit: nat, fetches: seq<FetchResult>): (outcomes: seq<PollOutcome>)
    ensures |outcomes| == |fetches|
    decreases |fetches|
  {
    if fetches == [] then []
    else
      var (outcome, next) := Poll(firstInit, fetches[0]);
      [outcome] + RunPolls(next, fetches[1..])
  }

  lemma {:induction false} NeverNotReadyOnceCounted(firstInit: nat, fetches: seq<FetchResult>, j: nat)
    requires firstInit >= 1 && j < |fetches|
    ensures RunPolls(firstInit, fetches)[j] != NotReady
    decreases |fetches|
  {
    if j > 0 {
      NeverNotReadyOnceCounted(Poll(firstInit, fetches[0]).1, fetches[1..], j - 1);
    }
  }

  /** Once a poll has succeeded, no later failure is classified as "not ready". */
  lemma {:induction false} NoNotReadyAfterSuccess(firstInit: nat, fetches: seq<FetchResult>, i: nat, j: nat)
    requires i < j < |fetches|
    requires RunPolls(firstInit, fetches)[i].Updated?
    ensures RunPolls(firstInit, fetches)[j] != NotReady
    decreases |fetches|
  {
    var next := Poll(firstInit, fetches[0]).1;
    if i == 0 {
      NeverNotReadyOnceCounted(next, fetches[1..], j - 1);
    } else {
      NoNotReadyAfterSuccess(next, fetches[1..], i - 1, j - 1);
    }
  }

  // ---- The records as entities read them from `coordinator.data` ----

  /**
   * A record of `coordinator.data` as the entities read it. Entities also read `gateway_id`,
   * `ts` and `reset_rain`, which this poll never writes; None marks an absent key.
   */
  datatype EntityData = EntityData(
    sensorId: Option<string>,
    gatewayId: Option<string>,
    sensorName: Option<string>,
    measurement: Option<string>,
    value: Option<Scalar>,
    unit: Option<string>,
    timestamp: Option<string>,
    ts: Option<Scalar>,
    resetRain: Option<Scalar>)

  /** A record written by this poll, seen as entity data. */
  function AsEntityData(r: Record): EntityData {
    EntityData(Some(r.sensorId), None, Some(r.sensorName), Some(r.measurement), Some(r.value),
               Some(r.unit), Some(r.timestamp), None, None)
  }

  class DataCoordinator {
    const host: string
    /** Successful polls so far, counted up to 2. */
    var firstInit: nat
    /** The keys of the entities created so far; it only grows. */
    var sensorEntityList: seq<string>
    /** The data entities read; the host framework stores each successful poll's map here. */
    var data: map<string, EntityData>

    constructor (host: string)
      ensures this.host == host && firstInit == 0 && sensorEntityList == [] && data == map[]
    {
      this.host := host;
      firstInit := 0;
      sensorEntityList := [];
      data := map[];
    }

    /** `_async_update_data` with the request's result as input. */
    method UpdateData(fetch: FetchResult) returns (outcome: PollOutcome)
      modifies this`firstInit
      ensures (outcome, firstInit) == Poll(old(firstInit), fetch)
    {
      if fetch.Unreachable? || fetch.status != 200 || fetch.body.None? {
        return Classify(firstInit);
      }
      var parsed := ParseSensors(fetch.body.value);
      if parsed.None? {
        return Classify(firstInit);
      }
      if firstInit < 2 {
        firstInit := firstInit + 1;
      }
      return Updated(parsed.value);
    }
  }
}

/**
 * Record flattening and field extraction in `syncTrackedEntityInstances`
 * (services/utils.ts): each tracked entity instance becomes one flat
 * dictionary `data` (attributes, then the fields of the enrollment in the
 * requested program, then that enrollment's events grouped by program stage),
 * from which the payload posted upstream is read.
 */
module TrackerSync {
  import opened Wrappers
  import opened Records
  import opened Seqs

  /** A value of the flattened dictionary: a string, or the events of one program stage. */
  datatype Value = Text(text: string) | Rows(rows: seq<Record>)

  datatype AttributeValue = AttributeValue(attribute: Option<string>, value: Option<string>)
  datatype DataValue = DataValue(dataElement: Option<string>, value: Option<string>)
  /** An event: its own fields (`programStage` among them) and its data values. */
  datatype Event = Event(fields: Record, dataValues: seq<DataValue>)
  /** An enrollment: its own fields (`program`, `orgUnit`, `enrollmentDate`, ...) and its events, if it has any. */
  datatype Enrollment = Enrollment(fields: Record, events: Option<seq<Event>>)
  datatype Instance = Instance(orgUnit: string, attributes: seq<AttributeValue>, enrollments: seq<Enrollment>)
  datatype OrgUnit = OrgUnit(id: string, name: string)

  /** The program stage whose last event is the lab request. */
  const LabStage := "zKFHLSj6Wd1"
  /** The attribute holding the `|`-separated driver reference. */
  const DriverAttribute := "x2mmRJ3TOXQ"

  /** `x || ""` on an optional string (an empty string is falsy but already `""`). */
  function OrEmpty(o: Option<string>): string
  {
    o.GetOr("")
  }

  /** `attributes.map(({ attribute, value }) => [attribute || "", value || ""])`. */
  function AttributePairs(attrs: seq<AttributeValue>): (ps: seq<(string, string)>)
    ensures |ps| == |attrs|
    ensures forall i :: 0 <= i < |attrs| ==> ps[i] == (OrEmpty(attrs[i].attribute), OrEmpty(attrs[i].value))
  {
    seq(|attrs|, i requires 0 <= i < |attrs| => (OrEmpty(attrs[i].attribute), OrEmpty(attrs[i].value)))
  }

  /** The attribute dictionary: attribute id (or `""`) to value (or `""`). */
  function AttributeRecord(attrs: seq<AttributeValue>): (r: Record)
    ensures forall k :: k in r <==> exists i :: 0 <= i < |attrs| && OrEmpty(attrs[i].attribute) == k
  {
    var ps := AttributePairs(attrs);
    assert forall i :: 0 <= i < |attrs| ==> ps[i].0 == OrEmpty(attrs[i].attribute);
    FromPairs(ps)
  }

  /** Each attribute id maps to the value of the last attribute carrying it, `""` standing in for a missing one. */
  lemma AttributeRecordLastWins(attrs: seq<AttributeValue>, i: nat)
    requires i < |attrs|
    requires forall j :: i < j < |attrs| ==> OrEmpty(attrs[j].attribute) != OrEmpty(attrs[i].attribute)
    ensures OrEmpty(attrs[i].attribute) in AttributeRecord(attrs)
    ensures AttributeRecord(attrs)[OrEmpty(attrs[i].attribute)] == OrEmpty(attrs[i].value)
  {
    FromPairsLastWins(AttributePairs(attrs), i);
  }

  /** `dataValues.map(({ dataElement, value }) => [dataElement || "", value || ""])`. */
  function DataValuePairs(dvs: seq<DataValue>): seq<(string, string)>
  {
    seq(|dvs|, i requires 0 <= i < |dvs| => (OrEmpty(dvs[i].dataElement), OrEmpty(dvs[i].value)))
  }

  /** An event flattened: `{...rest, ...fromPairs(dataValues)}`, data values winning over event fields. */
  function FlattenEvent(e: Event): Record
  {
    Merge(e.fields, FromPairs(DataValuePairs(e.dataValues)))
  }

  /** `events?.map(...)`: the flattened events; an enrollment without events groups to nothing. */
  function FlatEvents(e: Enrollment): (rows: seq<Record>)
    ensures e.events.Some? ==> |rows| == |e.events.value|
    ensures e.events.Some? ==> forall i :: 0 <= i < |rows| ==> rows[i] == FlattenEvent(e.events.value[i])
    ensures e.events.None? ==> rows == []
  {
    match e.events
    case None => []
    case Some(events) => seq(|events|, i requires 0 <= i < |events| => FlattenEvent(events[i]))
  }

  /** The key lodash `groupBy(rows, "programStage")` files a row under. */
  function StageOf(row: Record): string
  {
    if "programStage" in row then row["programStage"] else "undefined"
  }

  /** The rows of one stage, in their original order. */
  function OfStage(rows: seq<Record>, stage: string): (r: seq<Record>)
    ensures forall x :: x in r ==> x in rows && StageOf(x) == stage
    ensures r == [] ==> forall k :: 0 <= k < |rows| ==> StageOf(rows[k]) != stage
  {
    if rows == [] then []
    else (if StageOf(rows[0]) == stage then [rows[0]] else []) + OfStage(rows[1..], stage)
  }

  lemma {:induction false} OfStageSnoc(rows: seq<Record>, row: Record, stage: string)
    ensures OfStage(rows + [row], stage) == OfStage(rows, stage) + (if StageOf(row) == stage then [row] else [])
  {
    if rows == [] {
      assert rows + [row] == [row];
    } else {
      assert (rows + [row])[0] == rows[0];
      assert (rows + [row])[1..] == rows[1..] + [row];
      OfStageSnoc(rows[1..], row, stage);
    }
  }

  /** lodash `groupBy(rows, "programStage")`, row by row as lodash builds it. */
  function GroupByStage(rows: seq<Record>): map<string, seq<Record>>
  {
    if rows == [] then map[]
    else
      var groups := GroupByStage(rows[..|rows| - 1]);
      var row := rows[|rows| - 1];
      var stage := StageOf(row);
      groups[stage := (if stage in groups then groups[stage] else []) + [row]]
  }

  /** Grouping files under each stage exactly the rows of that stage, in order, and has no empty group. */
  lemma {:induction false} GroupByStageIsFilter(rows: seq<Record>, stage: string)
    ensures stage in GroupByStage(rows) <==> OfStage(rows, stage) != []
    ensures stage in GroupByStage(rows) ==> GroupByStage(rows)[stage] == OfStage(rows, stage)
  {
    if rows != [] {
      var init, row := rows[..|rows| - 1], rows[|rows| - 1];
      GroupByStageIsFilter(init, stage);
      assert rows == init + [row];
      OfStageSnoc(init, row, stage);
    }
  }

  /** The last row of a stage is the latest row of the input with that stage. */
  lemma {:induction false} LastOfStageIsLatest(rows: seq<Record>, stage: string) returns (j: nat)
    requires OfStage(rows, stage) != []
    ensures j < |rows| && StageOf(rows[j]) == stage
    ensures rows[j] == OfStage(rows, stage)[|OfStage(rows, stage)| - 1]
    ensures forall k :: j < k < |rows| ==> StageOf(rows[k]) != stage
  {
    var rest := OfStage(rows[1..], stage);
    if rest != [] {
      var k := LastOfStageIsLatest(rows[1..], stage);
      j := k + 1;
    } else {
      j := 0;
      forall k | 0 < k < |rows| ensures StageOf(rows[k]) != stage {
        assert rows[1..][k - 1] == rows[k];
      }
    }
  }

  /** An enrollment in `program`: `e.program === program`. */
  predicate Enrolled(e: Enrollment, program: string)
  {
    Get(e.fields, "program") == Some(program)
  }

  /** `enrollments.find(...)` from position `from` on, as an index. */
  function FindEnrollmentFrom(es: seq<Enrollment>, program: string, from: nat): (r: Option<nat>)
    requires from <= |es|
    ensures r.Some? ==> from <= r.value < |es| && Enrolled(es[r.value], program)
    ensures r.Some? ==> forall j :: from <= j < r.value ==> !Enrolled(es[j], program)
    ensures r.None? ==> forall j :: from <= j < |es| ==> !Enrolled(es[j], program)
    decreases |es| - from
  {
    if from == |es| then None
    else if Enrolled(es[from], program) then Some(from)
    else FindEnrollmentFrom(es, program, from + 1)
  }

  /** The first enrollment in the requested program, if there is one. */
  function FindEnrollment(es: seq<Enrollment>, program: string): (r: Option<nat>)
    ensures r.Some? ==> r.value < |es| && Enrolled(es[r.value], program)
    ensures r.Some? ==> forall j :: 0 <= j < r.value ==> !Enrolled(es[j], program)
    ensures r.None? ==> forall j :: 0 <= j < |es| ==> !Enrolled(es[j], program)
  {
    FindEnrollmentFrom(es, program, 0)
  }

  function TextValues(r: Record): map<string, Value>
  {
    map k | k in r :: Text(r[k])
  }

  function RowValues(groups: map<string, seq<Record>>): map<string, Value>
  {
    map k | k in groups :: Rows(groups[k])
  }

  /**
   * `data` for one instance: the attribute dictionary; with an enrollment in
   * the program, overlaid by that enrollment's fields and then by its events
   * grouped by stage.
   */
  function InstanceData(inst: Instance, program: string): map<string, Value>
  {
    var attributes := TextValues(AttributeRecord(inst.attributes));
    match FindEnrollment(inst.enrollments, program)
    case None => attributes
    case Some(i) =>
      var e := inst.enrollments[i];
      attributes + TextValues(e.fields) + RowValues(GroupByStage(FlatEvents(e)))
  }

  /**
   * The layers of `data`: a key holds its attribute value unless the selected
   * enrollment has a field of that name, and that unless the enrollment has
   * events of a stage of that name, whose rows then take the key.
   */
  lemma InstanceDataLayers(inst: Instance, program: string, key: string)
    ensures var data, attrs := InstanceData(inst, program), AttributeRecord(inst.attributes);
      match FindEnrollment(inst.enrollments, program)
      case None =>
        && (key in data <==> key in attrs)
        && (key in attrs ==> data[key] == Text(attrs[key]))
      case Some(i) =>
        var e := inst.enrollments[i];
        var stage := OfStage(FlatEvents(e), key);
        && (key in data <==> key in attrs || key in e.fields || stage != [])
        && (stage != [] ==> data[key] == Rows(stage))
        && (stage == [] && key in e.fields ==> data[key] == Text(e.fields[key]))
        && (stage == [] && key !in e.fields && key in attrs ==> data[key] == Text(attrs[key]))
  {
    match FindEnrollment(inst.enrollments, program)
    case None =>
    case Some(i) =>
      GroupByStageIsFilter(FlatEvents(inst.enrollments[i]), key);
  }

  /**
   * `labRequests`: the last entry of `data.zKFHLSj6Wd1` when that is a non-empty
   * list, else `{}`. (A non-empty string there would give its last character,
   * on which every field lookup is `undefined`, as on `{}`.)
   */
  function LabRequests(data: map<string, Value>): Record
  {
    if LabStage in data && data[LabStage].Rows? && |data[LabStage].rows| > 0
    then data[LabStage].rows[|data[LabStage].rows| - 1]
    else map[]
  }

  /**
   * Only the first enrollment in the program contributes, and the lab request
   * is the last of its flattened events in stage `zKFHLSj6Wd1`, or `{}` when it
   * has none.
   */
  lemma LabRequestsIsLastLabEvent(inst: Instance, program: string)
    ensures LabRequests(InstanceData(inst, program)) ==
      match FindEnrollment(inst.enrollments, program)
      case None => map[]
      case Some(i) =>
        var lab := OfStage(FlatEvents(inst.enrollments[i]), LabStage);
        if lab == [] then map[] else lab[|lab| - 1]
  {
    InstanceDataLayers(inst, program, LabStage);
  }

  /** `String(v)`: a list of objects renders as `[object Object]` per element, comma-separated. */
  function ToText(v: Value): string
  {
    match v
    case Text(s) => s
    case Rows(rows) => Join(seq(|rows|, _ => "[object Object]"), ",")
  }

  /**
   * The driver id: `""` without the attribute; otherwise the third `|`-field of
   * its text when it has at least two `|` (more than two pieces), else the first
   * field, which is the whole text when it has no `|`.
   */
  function DriverId(data: map<string, Value>): (r: string)
    ensures DriverAttribute !in data ==> r == ""
    ensures '|' !in r
    ensures DriverAttribute in data && '|' !in ToText(data[DriverAttribute]) ==> r == ToText(data[DriverAttribute])
  {
    if DriverAttribute !in data then ""
    else
      var s := ToText(data[DriverAttribute]);
      Field(s, '|', if Count(s, '|') >= 2 then 2 else 0)
  }

  /** The `eacDriverId` computation: split the attribute's text on `|` and pick a piece. */
  method EacDriverId(data: map<string, Value>) returns (eacDriverId: string)
    ensures eacDriverId == DriverId(data)
  {
    eacDriverId := "";
    if DriverAttribute in data {
      var s := ToText(data[DriverAttribute]);
      var chunks := Split(s, '|');
      SplitLength(s, '|');
      if |chunks| > 2 {
        SplitField(s, '|', 2);
        eacDriverId := chunks[2];
      } else if |chunks| > 0 {
        SplitField(s, '|', 0);
        eacDriverId := chunks[0];
      }
    }
  }

  /** The payload fields read as `data.<id> || ""`, by payload name and data key. */
  const DefaultedFields: seq<(string, string)> := [
    ("typeOfPersonTested", "xwvCR3dis60"), ("fullName", "sB1IHYu2xQT"), ("formId", "PVXhTjVdB92"),
    ("barcode", "rSKAr1Ho7rI"), ("poeId", "HAZ7VQ730yn"), ("dob", "g4LJbkM0R24"), ("sex", "Rq4qM2wKYFL"),
    ("passportOrNInNo", "oUqWGeHjj5C"), ("casePhoneContact", "E7u9XdW24SP"), ("nationality", "XvETY1aTxuB"),
    ("entryDate", "UJiu0P8GvHt"), ("truckOrFlightNo", "h6aZFN4DLcR"), ("seatNo", "XX8NZilra7b"),
    ("departure", "cW0UPEANS5t"), ("destination", "pxcXhmjJeMv"), ("addressInUganda", "ooK7aSiAaGq"),
    ("plannedDuration", "eH7YTWgoHgo"), ("needForIsolation", "Ep6evsVocKY"), ("underQuarantine", "oVFYcqtwPY9"),
    ("referredForFurtherInvestigation", "EZwIFcKvSes"), ("nokName", "fik9qo8iHeo"), ("nokPhone", "j6sEr8EcULP"),
    ("temperature", "QhDKRe2QDA7"), ("freeFromSymptoms", "EWWNozu6TVd"), ("selectSymptoms", "lByQFYSVb2Z"),
    ("knownUnderlyingConditions", "VS4GY78XPaH"), ("reasonsForHWTesting", "kwNWq4drD2G")
  ]

  /** `data[key] || ""`: a missing or empty value becomes `""`; any list is truthy and kept. */
  function Defaulted(data: map<string, Value>, key: string): Value
  {
    if key in data then data[key] else Text("")
  }

  /** A field without a default: JSON leaves it out when its value is `undefined`. */
  function Optional(name: string, v: Option<Value>): map<string, Value>
  {
    match v
    case None => map[]
    case Some(x) => map[name := x]
  }

  function Lookup(data: map<string, Value>, key: string): Option<Value>
  {
    if key in data then Some(data[key]) else None
  }

  /** The property key `data.orgUnit` turns into when it indexes `organisations`. */
  function OrgUnitKey(data: map<string, Value>): string
  {
    if "orgUnit" in data then ToText(data["orgUnit"]) else "undefined"
  }

  /** The organisation-unit dictionary: `fromPairs(organisationUnits.map(o => [o.id, o.name]))`. */
  function Organisations(units: seq<OrgUnit>): map<string, string>
  {
    FromPairs(seq(|units|, i requires 0 <= i < |units| => (units[i].id, units[i].name)))
  }

  /** The fields of the payload that default to `""`: each is always present. */
  function DefaultedPart(data: map<string, Value>): (m: map<string, Value>)
    ensures forall i :: 0 <= i < |DefaultedFields| ==> DefaultedFields[i].0 in m
    ensures forall k :: k in m ==> exists i :: 0 <= i < |DefaultedFields| && DefaultedFields[i].0 == k
  {
    var pairs := seq(|DefaultedFields|, i requires 0 <= i < |DefaultedFields| =>
      (DefaultedFields[i].0, Defaulted(data, DefaultedFields[i].1)));
    assert forall i :: 0 <= i < |DefaultedFields| ==> pairs[i].0 == DefaultedFields[i].0;
    FromPairs(pairs)
  }

  /** The payload fields without a default, each left out when its value is `undefined`. */
  function OptionalPart(data: map<string, Value>, organisations: map<string, string>): (m: map<string, Value>)
    ensures m.Keys <= OtherNames
  {
    var organisation := if OrgUnitKey(data) in organisations then Some(Text(organisations[OrgUnitKey(data)])) else None;
    Optional("screenerName", Lookup(data, "TU0Jteb9H7F"))
    + Optional("organisation", organisation)
    + Optional("organisationId", Lookup(data, "orgUnit"))
    + Optional("sampleCollectionDate", Lookup(data, "enrollmentDate"))
    + Optional("sampleCollectionLocation", Lookup(data, "cRRJ9fsIYYz"))
  }

  /**
   * The object posted upstream for one instance (without `age`, and without
   * `district`, whose lookup in the always-empty `calculatedDistricts` is
   * `undefined`).
   */
  function Payload(data: map<string, Value>, organisations: map<string, string>): (p: map<string, Value>)
    ensures forall i :: 0 <= i < |DefaultedFields| ==> DefaultedFields[i].0 in p
    ensures "ageUnits" in p && p["ageUnits"] == Text("Years")
    ensures "eacDriverId" in p && p["eacDriverId"] == Text(DriverId(data))
    ensures "sampleType" in p && p["sampleType"] == Text(OrEmpty(Get(LabRequests(data), "PaCUNfho8eD")))
    ensures "testType" in p && p["testType"] == Text(OrEmpty(Get(LabRequests(data), "Iwiv0W39Yqq")))
  {
    var defaulted := DefaultedPart(data);
    var computed := map[
      "ageUnits" := Text("Years"),
      "eacDriverId" := Text(DriverId(data)),
      "sampleType" := Text(OrEmpty(Get(LabRequests(data), "PaCUNfho8eD"))),
      "testType" := Text(OrEmpty(Get(LabRequests(data), "Iwiv0W39Yqq")))];
    var p := defaulted + OptionalPart(data, organisations) + computed;
    assert defaulted.Keys <= p.Keys;
    p
  }

  /** The payload names that have no `""` default. */
  const OtherNames: set<string> := {"screenerName", "organisation", "organisationId", "sampleCollectionDate",
    "sampleCollectionLocation", "ageUnits", "eacDriverId", "sampleType", "testType"}

  /** No payload name is listed twice among the defaulted fields. */
  lemma DefaultedNamesDistinct()
    ensures forall i, j :: 0 <= i < j < |DefaultedFields| ==> DefaultedFields[i].0 != DefaultedFields[j].0
  {
  }

  /** No defaulted field shares its name with a field without a default. */
  lemma DefaultedNamesNotOther()
    ensures forall i :: 0 <= i < |DefaultedFields| ==> DefaultedFields[i].0 !in OtherNames
  {
  }

  lemma DefaultedPartValue(data: map<string, Value>, i: nat)
    requires i < |DefaultedFields|
    ensures DefaultedFields[i].0 in DefaultedPart(data)
    ensures DefaultedPart(data)[DefaultedFields[i].0] == Defaulted(data, DefaultedFields[i].1)
  {
    DefaultedNamesDistinct();
    var pairs := seq(|DefaultedFields|, j requires 0 <= j < |DefaultedFields| =>
      (DefaultedFields[j].0, Defaulted(data, DefaultedFields[j].1)));
    FromPairsLastWins(pairs, i);
    assert DefaultedPart(data) == FromPairs(pairs);
  }

  /**
   * Every defaulted payload field carries `data[key] || ""` for its own key:
   * no later field and no computed field overrides it.
   */
  lemma PayloadDefaultsEachField(data: map<string, Value>, organisations: map<string, string>, i: nat)
    requires i < |DefaultedFields|
    ensures DefaultedFields[i].0 in Payload(data, organisations)
    ensures Payload(data, organisations)[DefaultedFields[i].0] == Defaulted(data, DefaultedFields[i].1)
  {
    DefaultedNamesNotOther();
    DefaultedPartValue(data, i);
    assert DefaultedFields[i].0 !in OtherNames;
  }

  /** The fields without a default: each present exactly when its source value is defined, and then carrying it. */
  lemma OptionalPartFields(data: map<string, Value>, organisations: map<string, string>)
    ensures var m := OptionalPart(data, organisations);
      && ("screenerName" in m <==> "TU0Jteb9H7F" in data)
      && ("TU0Jteb9H7F" in data ==> m["screenerName"] == data["TU0Jteb9H7F"])
      && ("organisation" in m <==> OrgUnitKey(data) in organisations)
      && (OrgUnitKey(data) in organisations ==> m["organisation"] == Text(organisations[OrgUnitKey(data)]))
      && ("organisationId" in m <==> "orgUnit" in data)
      && ("orgUnit" in data ==> m["organisationId"] == data["orgUnit"])
      && ("sampleCollectionDate" in m <==> "enrollmentDate" in data)
      && ("enrollmentDate" in data ==> m["sampleCollectionDate"] == data["enrollmentDate"])
      && ("sampleCollectionLocation" in m <==> "cRRJ9fsIYYz" in data)
      && ("cRRJ9fsIYYz" in data ==> m["sampleCollectionLocation"] == data["cRRJ9fsIYYz"])
  {
  }

  lemma OtherNameNotDefaulted(data: map<string, Value>, name: string)
    requires name in OtherNames
    ensures name !in DefaultedPart(data)
  {
    if name in DefaultedPart(data) {
      var i :| 0 <= i < |DefaultedFields| && DefaultedFields[i].0 == name;
      DefaultedNamesNotOther();
      assert false;
    }
  }

  /**
   * In the payload, a field without a default comes from the optional part
   * untouched: neither a defaulted nor a computed field shares its name.
   */
  lemma PayloadOptionalField(data: map<string, Value>, organisations: map<string, string>, name: string)
    requires name in OtherNames - {"ageUnits", "eacDriverId", "sampleType", "testType"}
    ensures name in Payload(data, organisations) <==> name in OptionalPart(data, organisations)
    ensures name in OptionalPart(data, organisations) ==>
      Payload(data, organisations)[name] == OptionalPart(data, organisations)[name]
  {
    OtherNameNotDefaulted(data, name);
  }

  /** Every posted key is a named payload field. */
  lemma PayloadKeys(data: map<string, Value>, organisations: map<string, string>)
    ensures forall k :: k in Payload(data, organisations) ==>
      k in OtherNames || exists i :: 0 <= i < |DefaultedFields| && DefaultedFields[i].0 == k
  {
  }

  /** The org-unit ids of the fetched instances, in order. */
  function OrgUnitIds(instances: seq<Instance>): seq<string>
  {
    seq(|instances|, i requires 0 <= i < |instances| => instances[i].orgUnit)
  }

  /** The `filter` of the organisation-unit query: `id:in:[<distinct org units joined by ",">]`. */
  function OrgUnitFilter(instances: seq<Instance>): string
  {
    "id:in:[" + Join(Uniq(OrgUnitIds(instances)), ",") + "]"
  }

  /**
   * Between `id:in:[` and `]` the filter lists every org unit of the instances
   * exactly once (org-unit ids contain no comma).
   */
  lemma OrgUnitFilterListsEachOnce(instances: seq<Instance>)
    requires |instances| > 0
    requires forall i :: 0 <= i < |instances| ==> ',' !in instances[i].orgUnit
    ensures var f := OrgUnitFilter(instances);
      && |f| >= 8 && f[..7] == "id:in:[" && f[|f| - 1] == ']'
      && var listed := Split(f[7..|f| - 1], ',');
      && Distinct(listed)
      && (forall i :: 0 <= i < |instances| ==> instances[i].orgUnit in listed)
      && (forall u :: u in listed ==> exists i :: 0 <= i < |instances| && instances[i].orgUnit == u)
  {
    var ids := OrgUnitIds(instances);
    var u := Uniq(ids);
    assert ids[0] in ids;
    assert |u| >= 1;
    forall i | 0 <= i < |u| ensures ',' !in u[i] {
      assert u[i] in ids;
    }
    SplitJoin(u, ',');
    var f := OrgUnitFilter(instances);
    var body := Join(u, ",");
    assert f == "id:in:[" + body + "]";
    assert f[7..|f| - 1] == body;
    forall i | 0 <= i < |instances| ensures instances[i].orgUnit in u {
      assert ids[i] == instances[i].orgUnit;
    }
  }

  /** What one call of `syncTrackedEntityInstances` sends: the org-unit filter, if queried, and the posts. */
  datatype SyncPlan = SyncPlan(orgUnitFilter: Option<string>, posts: seq<map<string, Value>>)

  /**
   * With no instance fetched nothing more happens; otherwise the org units are
   * queried with the filter and one payload per instance is posted.
   */
  function Sync(instances: seq<Instance>, program: string, units: seq<OrgUnit>): (plan: SyncPlan)
    ensures plan.orgUnitFilter.None? <==> |instances| == 0
    ensures |instances| > 0 ==> plan.orgUnitFilter == Some(OrgUnitFilter(instances))
    ensures |plan.posts| == |instances|
    ensures forall i :: 0 <= i < |instances| ==>
      plan.posts[i] == Payload(InstanceData(instances[i], program), Organisations(units))
  {
    if |instances| == 0 then SyncPlan(None, [])
    else SyncPlan(Some(OrgUnitFilter(instances)),
                  seq(|instances|, i requires 0 <= i < |instances| =>
                    Payload(InstanceData(instances[i], program), Organisations(units))))
  }
}

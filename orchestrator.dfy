/**
 * The control logic of `processProgramMapping` (services/utils.ts): the
 * credential guard, the dispatch on the program mapping, the Go.Data token
 * handling, the exporter's page loop and the importer's batched look-up of
 * existing tracked entity instances. Every remote call is a request recorded in
 * a trace; what comes back is given by oracles.
 */
module Orchestrator {
  import opened Wrappers
  import opened Records
  import opened Seqs
  import TrackerSync

  /** A query parameter of a remote authentication: `{ param, value }`. */
  datatype Param = Param(param: string, value: string)

  /**
   * `programMapping.authentication`: the fields the source destructures by name,
   * and `rest` for all the others (the server URL among them).
   */
  datatype Authentication = Authentication(
    rest: Record,
    params: Option<map<string, Param>>,
    basicAuth: Option<bool>,
    hasNextLink: Option<bool>,
    headers: Option<map<string, string>>,
    username: Option<string>,
    password: Option<string>)

  /**
   * The fields of a program mapping the control logic reads. An absent
   * `isSource` is `false`; an absent `dataSource` or `remoteProgram` is `""`.
   */
  datatype ProgramMapping = ProgramMapping(
    program: string,
    isSource: bool,
    dataSource: string,
    remoteProgram: string,
    authentication: Option<Authentication>)

  /** `postRemote(rest, "api/users/login", { email: username, password })`. */
  datatype LoginRequest = LoginRequest(target: Record, email: Option<string>, password: Option<string>)

  /** `fetchRemote(currentAuth, endpoint)`. */
  datatype GoDataRequest = GoDataRequest(auth: Authentication, endpoint: string)

  /** One finding of `findUniqAttributes`: an attribute and a value to look for. */
  datatype UniqueValue = UniqueValue(attribute: string, value: string)

  /** The remote calls a run makes, in order. */
  datatype Request =
    | GetMetadata(path: string)
    | PostLogin(login: LoginRequest)
    | GoData(query: GoDataRequest)
    | GetPage(program: string, page: nat)
    | GetInstances(params: seq<(string, string)>)

  /**
   * What the remote systems answer: the program mapping stored under a mapping
   * id, the token a login yields (`""` for none), whether a Go.Data query comes
   * back with a body, the unique values `findUniqAttributes` extracts from the
   * cases it returned, the size of each page of a program's instances, and the
   * instances an importer query finds.
   */
  datatype Oracles = Oracles(
    programMapping: string -> ProgramMapping,
    token: LoginRequest -> string,
    answers: GoDataRequest -> bool,
    uniqueValues: GoDataRequest -> seq<UniqueValue>,
    pageSize: (string, nat) -> nat,
    instances: seq<(string, string)> -> seq<TrackerSync.Instance>)

  /** The key dhis2.json is indexed with: `schedule?.id || ""`. */
  function CredentialKey(schedule: Record): string
  {
    if Truthy(schedule, "id") then schedule["id"] else ""
  }

  /** `${schedule.mapping}` in the data-store paths. */
  function MappingKey(schedule: Record): string
  {
    if "mapping" in schedule then schedule["mapping"] else "undefined"
  }

  /** The five reads every run with credentials starts with. */
  function MetadataRequests(mapping: string, program: string): seq<Request>
  {
    [ GetMetadata("dataStore/iw-program-mapping/" + mapping),
      GetMetadata("dataStore/iw-attribute-mapping/" + mapping),
      GetMetadata("dataStore/iw-stage-mapping/" + mapping),
      GetMetadata("dataStore/iw-ou-mapping/" + mapping),
      GetMetadata("programs/" + program) ]
  }

  datatype Strategy = Export | Import | Idle

  /**
   * The dispatch on `(isSource, dataSource, remoteProgram)`: only Go.Data with a
   * remote program does anything; `dhis2`, `api` and every other source are idle.
   */
  function Dispatch(pm: ProgramMapping): (s: Strategy)
    ensures s == Export <==> pm.isSource && pm.dataSource == "godata" && pm.remoteProgram != ""
    ensures s == Import <==> !pm.isSource && pm.dataSource == "godata" && pm.remoteProgram != ""
    ensures pm.dataSource == "dhis2" || pm.dataSource == "api" ==> s == Idle
  {
    if pm.dataSource == "dhis2" then Idle
    else if pm.dataSource == "godata" && pm.remoteProgram != "" then (if pm.isSource then Export else Import)
    else Idle
  }

  /**
   * `getGoDataToken`'s login call: without authentication none; otherwise the
   * authentication minus `params`, `basicAuth`, `hasNextLink`, `headers`,
   * `username` and `password` is the target, and the user name and password go
   * in the body.
   */
  function LoginRequestFor(pm: ProgramMapping): (r: Option<LoginRequest>)
    ensures r.Some? <==> pm.authentication.Some?
    ensures r.Some? ==> r.value.target == pm.authentication.value.rest
    ensures r.Some? ==> r.value.email == pm.authentication.value.username
    ensures r.Some? ==> r.value.password == pm.authentication.value.password
  {
    match pm.authentication
    case None => None
    case Some(a) => Some(LoginRequest(a.rest, a.username, a.password))
  }

  /**
   * `queryGoData`'s rewrite of the authentication: nothing without a token and
   * an authentication; otherwise basic auth off, no user name, password or
   * next-link flag, the headers and other fields kept, and the access token
   * added to the query parameters under `auth`.
   */
  function QueryGoData(pm: ProgramMapping, token: string, endpoint: string): (r: Option<GoDataRequest>)
    ensures r.Some? <==> token != "" && pm.authentication.Some?
    ensures r.Some? ==> r.value.endpoint == endpoint
    ensures r.Some? ==>
      var before, after := pm.authentication.value, r.value.auth;
      && after.rest == before.rest
      && after.headers == before.headers
      && after.basicAuth == Some(false)
      && after.hasNextLink.None? && after.username.None? && after.password.None?
      && after.params.Some?
      && after.params.value.Keys == before.params.GetOr(map[]).Keys + {"auth"}
      && after.params.value["auth"] == Param("access_token", token)
      && forall k :: k in before.params.GetOr(map[]) && k != "auth" ==> after.params.value[k] == before.params.value[k]
  {
    if token != "" && pm.authentication.Some? then
      var a := pm.authentication.value;
      var params := a.params.GetOr(map[])["auth" := Param("access_token", token)];
      Some(GoDataRequest(Authentication(a.rest, Some(params), Some(false), None, a.headers, None, None), endpoint))
    else None
  }

  /**
   * The pages the exporter's `do ... while (loop)` requests from `page` on: it
   * sets `loop` to "this page was empty", so it goes on through empty pages and
   * stops right after the first non-empty one. `fuel` bounds the number of
   * iterations: with every page empty the source never stops.
   */
  function PagesFrom(size: nat -> nat, page: nat, fuel: nat): seq<nat>
    decreases fuel
  {
    if fuel == 0 then []
    else if size(page) > 0 then [page]
    else [page] + PagesFrom(size, page + 1, fuel - 1)
  }

  /**
   * The pages requested are consecutive from `page`; at least one is requested;
   * every one but the last was empty; and the loop ends early only on a
   * non-empty page. So it stops at the first non-empty page, not the first
   * empty one.
   */
  lemma {:induction false} PagesStopAfterFirstNonEmpty(size: nat -> nat, page: nat, fuel: nat)
    decreases fuel
    ensures var ps := PagesFrom(size, page, fuel);
      && |ps| <= fuel
      && (fuel > 0 ==> |ps| > 0)
      && (forall i :: 0 <= i < |ps| ==> ps[i] == page + i)
      && (forall i :: 0 <= i < |ps| - 1 ==> size(ps[i]) == 0)
      && (|ps| < fuel ==> size(ps[|ps| - 1]) > 0)
  {
    if fuel > 0 && size(page) == 0 {
      PagesStopAfterFirstNonEmpty(size, page + 1, fuel - 1);
      var rest := PagesFrom(size, page + 1, fuel - 1);
      assert PagesFrom(size, page, fuel) == [page] + rest;
      assert forall i :: 0 < i < |rest| + 1 ==> ([page] + rest)[i] == rest[i - 1];
    }
  }

  /** The exporter's page loop: request page 1, 2, ... until a page is not empty (at most `fuel` pages). */
  method ExportPages(program: string, pageSize: (string, nat) -> nat, fuel: nat) returns (pages: seq<nat>)
    ensures pages == PagesFrom(p => pageSize(program, p), 1, fuel)
  {
    ghost var size: nat -> nat := p => pageSize(program, p);
    var loop := true;
    var page := 1;
    pages := [];
    while loop && |pages| < fuel
      invariant page == |pages| + 1 && |pages| <= fuel
      invariant loop ==> pages + PagesFrom(size, page, fuel - |pages|) == PagesFrom(size, 1, fuel)
      invariant !loop ==> pages == PagesFrom(size, 1, fuel)
      decreases fuel - |pages|
    {
      ghost var rest := PagesFrom(size, page + 1, fuel - |pages| - 1);
      pages := pages + [page];
      loop := pageSize(program, page) == 0;
      if loop {
        assert pages[..|pages| - 1] + ([page] + rest) == pages + rest;
      }
      page := page + 1;
    }
  }

  /** One `filter` of an importer query: `<attribute>:in:<v1>;...;<vk>`. */
  datatype Filter = Filter(attribute: string, values: seq<string>)

  function Render(f: Filter): string
  {
    f.attribute + ":in:" + Join(f.values, ";")
  }

  /**
   * The values of a filter can be read back from the rendered filter: what
   * follows `<attribute>:in:` splits on `;` into exactly the values, when no
   * value contains a `;`.
   */
  lemma RenderedValuesSplitBack(f: Filter)
    requires |f.values| >= 1
    requires forall i :: 0 <= i < |f.values| ==> ';' !in f.values[i]
    ensures Render(f)[..|f.attribute|] == f.attribute
    ensures Split(Render(f)[|f.attribute| + 4..], ';') == f.values
  {
    assert Render(f)[|f.attribute| + 4..] == Join(f.values, ";");
    SplitJoin(f.values, ';');
  }

  function AttributesOf(chunk: seq<UniqueValue>): seq<string>
  {
    seq(|chunk|, i requires 0 <= i < |chunk| => chunk[i].attribute)
  }

  /** The values of one attribute in a batch, in their original order. */
  function ValuesOf(chunk: seq<UniqueValue>, attribute: string): (vs: seq<string>)
    ensures forall k :: 0 <= k < |chunk| && chunk[k].attribute == attribute ==> chunk[k].value in vs
    ensures forall v :: v in vs ==> UniqueValue(attribute, v) in chunk
  {
    if chunk == [] then []
    else
      var rest := ValuesOf(chunk[1..], attribute);
      assert forall k :: 0 < k < |chunk| ==> chunk[k] == chunk[1..][k - 1];
      (if chunk[0].attribute == attribute then [chunk[0].value] else []) + rest
  }

  /** Appending a value to the batch appends it to its own attribute's values and leaves the others alone. */
  lemma {:induction false} ValuesOfSnoc(chunk: seq<UniqueValue>, u: UniqueValue, attribute: string)
    ensures ValuesOf(chunk + [u], attribute) == ValuesOf(chunk, attribute) + (if u.attribute == attribute then [u.value] else [])
  {
    if chunk == [] {
      assert chunk + [u] == [u];
    } else {
      assert (chunk + [u])[0] == chunk[0];
      assert (chunk + [u])[1..] == chunk[1..] + [u];
      ValuesOfSnoc(chunk[1..], u, attribute);
    }
  }

  /**
   * lodash `groupBy(chunk, "attribute")`, reduced to the values: row by row,
   * each value is pushed onto the list of its attribute.
   */
  function GroupValues(chunk: seq<UniqueValue>): map<string, seq<string>>
  {
    if chunk == [] then map[]
    else
      var groups := GroupValues(chunk[..|chunk| - 1]);
      var u := chunk[|chunk| - 1];
      groups[u.attribute := (if u.attribute in groups then groups[u.attribute] else []) + [u.value]]
  }

  /**
   * Grouping files under each attribute exactly that attribute's values, in
   * their original order, and creates no empty group.
   */
  lemma {:induction false} GroupValuesIsFilter(chunk: seq<UniqueValue>, attribute: string)
    ensures attribute in GroupValues(chunk) <==> ValuesOf(chunk, attribute) != []
    ensures attribute in GroupValues(chunk) ==> GroupValues(chunk)[attribute] == ValuesOf(chunk, attribute)
  {
    if chunk != [] {
      var init, u := chunk[..|chunk| - 1], chunk[|chunk| - 1];
      GroupValuesIsFilter(init, attribute);
      assert chunk == init + [u];
      ValuesOfSnoc(init, u, attribute);
    }
  }

  /**
   * `Object.entries(groupBy(chunk, "attribute"))` as filters: one per distinct
   * attribute, in order of first occurrence, each with that attribute's group.
   */
  function Filters(chunk: seq<UniqueValue>): seq<Filter>
  {
    var attributes := Uniq(AttributesOf(chunk));
    var groups := GroupValues(chunk);
    seq(|attributes|, i requires 0 <= i < |attributes| =>
      Filter(attributes[i], if attributes[i] in groups then groups[attributes[i]] else []))
  }

  /** Each attribute has at most one filter. */
  lemma FiltersDistinct(chunk: seq<UniqueValue>)
    ensures forall i, j :: 0 <= i < j < |Filters(chunk)| ==> Filters(chunk)[i].attribute != Filters(chunk)[j].attribute
  {
    var attributes := Uniq(AttributesOf(chunk));
    assert forall i :: 0 <= i < |attributes| ==> Filters(chunk)[i].attribute == attributes[i];
  }

  /** The filters are for exactly the attributes that occur in the batch. */
  lemma FiltersCoverBatch(chunk: seq<UniqueValue>)
    ensures forall k :: 0 <= k < |chunk| ==>
      exists i :: 0 <= i < |Filters(chunk)| && Filters(chunk)[i].attribute == chunk[k].attribute
    ensures forall i :: 0 <= i < |Filters(chunk)| ==> Filters(chunk)[i].attribute in AttributesOf(chunk)
  {
    var attributes := Uniq(AttributesOf(chunk));
    var fs := Filters(chunk);
    forall k | 0 <= k < |chunk|
      ensures exists i :: 0 <= i < |fs| && fs[i].attribute == chunk[k].attribute
    {
      assert AttributesOf(chunk)[k] in attributes;
      var i :| 0 <= i < |attributes| && attributes[i] == chunk[k].attribute;
      assert fs[i].attribute == chunk[k].attribute;
    }
    forall i | 0 <= i < |fs|
      ensures fs[i].attribute in AttributesOf(chunk)
    {
      assert fs[i].attribute == attributes[i];
    }
  }

  /** Each filter lists its attribute's values in the batch, in their original order. */
  lemma FiltersListValues(chunk: seq<UniqueValue>)
    ensures forall i :: 0 <= i < |Filters(chunk)| ==> Filters(chunk)[i].values == ValuesOf(chunk, Filters(chunk)[i].attribute)
  {
    forall i | 0 <= i < |Filters(chunk)|
      ensures Filters(chunk)[i].values == ValuesOf(chunk, Filters(chunk)[i].attribute)
    {
      GroupValuesIsFilter(chunk, Filters(chunk)[i].attribute);
    }
  }

  /** The query parameters of one importer batch, in the order they are appended. */
  function BatchParams(chunk: seq<UniqueValue>, program: string): seq<(string, string)>
  {
    var fs := Filters(chunk);
    seq(|fs|, i requires 0 <= i < |fs| => ("filter", Render(fs[i])))
    + [("fields", "*"), ("program", program), ("ouMode", "ALL")]
  }

  /** The importer's batches: the unique values in chunks of 50. */
  function Batches(values: seq<UniqueValue>): seq<seq<UniqueValue>>
  {
    Chunks(values, 50)
  }

  /** One query per batch, in batch order. */
  function BatchQueries(values: seq<UniqueValue>, program: string): (qs: seq<seq<(string, string)>>)
    ensures |qs| == |Batches(values)|
  {
    var bs := Batches(values);
    seq(|bs|, i requires 0 <= i < |bs| => BatchParams(bs[i], program))
  }

  /** The response to each query, in query order. */
  function Responses(queries: seq<seq<(string, string)>>, instances: seq<(string, string)> -> seq<TrackerSync.Instance>): (rs: seq<seq<TrackerSync.Instance>>)
    ensures |rs| == |queries|
  {
    seq(|queries|, i requires 0 <= i < |queries| => instances(queries[i]))
  }

  lemma ResponsesSnoc(queries: seq<seq<(string, string)>>, q: seq<(string, string)>, instances: seq<(string, string)> -> seq<TrackerSync.Instance>)
    ensures Responses(queries + [q], instances) == Responses(queries, instances) + [instances(q)]
  {
    assert Responses(queries + [q], instances)[|queries|] == instances(q);
  }

  lemma {:induction false} InConcat<T>(ss: seq<seq<T>>, x: T) returns (i: nat)
    requires x in Concat(ss)
    ensures i < |ss| && x in ss[i]
  {
    if x in ss[0] {
      i := 0;
    } else {
      var k := InConcat(ss[1..], x);
      i := k + 1;
    }
  }

  /**
   * The batches cover the unique values exactly (in order, at most 50 each),
   * and every value is asked for: some batch has a filter for its attribute
   * listing it.
   */
  lemma ImporterAsksForEveryValue(values: seq<UniqueValue>, k: nat)
    requires k < |values|
    ensures Concat(Batches(values)) == values
    ensures forall i :: 0 <= i < |Batches(values)| ==> 0 < |Batches(values)[i]| <= 50
    ensures exists i, j :: (0 <= i < |Batches(values)| && 0 <= j < |Filters(Batches(values)[i])|
      && Filters(Batches(values)[i])[j].attribute == values[k].attribute
      && values[k].value in Filters(Batches(values)[i])[j].values)
  {
    var bs := Batches(values);
    var i := InConcat(bs, values[k]);
    var c := bs[i];
    var kc :| 0 <= kc < |c| && c[kc] == values[k];
    var fs := Filters(c);
    FiltersCoverBatch(c);
    FiltersListValues(c);
    var j :| 0 <= j < |fs| && fs[j].attribute == c[kc].attribute;
    assert fs[j].values == ValuesOf(c, c[kc].attribute);
    assert values[k].value in fs[j].values;
    assert 0 <= i < |bs| && 0 <= j < |Filters(bs[i])| && Filters(bs[i])[j].attribute == values[k].attribute;
  }

  /**
   * The importer's `for` loop: one query per batch, and `foundInstances` the
   * responses concatenated in batch order.
   */
  method FindExisting(values: seq<UniqueValue>, program: string, instances: seq<(string, string)> -> seq<TrackerSync.Instance>)
    returns (queries: seq<seq<(string, string)>>, found: seq<TrackerSync.Instance>)
    ensures queries == BatchQueries(values, program)
    ensures found == Concat(Responses(queries, instances))
  {
    var batches := Batches(values);
    queries, found := [], [];
    var i := 0;
    while i < |batches|
      invariant 0 <= i <= |batches|
      invariant queries == BatchQueries(values, program)[..i]
      invariant found == Concat(Responses(queries, instances))
    {
      var params := BatchParams(batches[i], program);
      var response := instances(params);
      ResponsesSnoc(queries, params, instances);
      ConcatSnoc(Responses(queries, instances), response);
      queries, found := queries + [params], found + response;
      i := i + 1;
    }
  }

  /** The requests of the exporter branch after the metadata reads. */
  function ExportTrace(pm: ProgramMapping, o: Oracles, fuel: nat): seq<Request>
  {
    match LoginRequestFor(pm)
    case None => []
    case Some(login) =>
      var token := o.token(login);
      if token == "" then [PostLogin(login)]
      else
        var outbreak := QueryGoData(pm, token, "api/outbreaks/" + pm.remoteProgram).value;
        var cases := QueryGoData(pm, token, "api/outbreaks/" + pm.remoteProgram + "/cases").value;
        var pages := if o.answers(outbreak) then PagesFrom(p => o.pageSize(pm.program, p), 1, fuel) else [];
        [PostLogin(login), GoData(outbreak), GoData(cases)]
        + seq(|pages|, i requires 0 <= i < |pages| => GetPage(pm.program, pages[i]))
  }

  /** The Go.Data query for the cases of the remote program, when the importer gets that far. */
  function CasesQuery(pm: ProgramMapping, o: Oracles): Option<GoDataRequest>
  {
    match LoginRequestFor(pm)
    case None => None
    case Some(login) =>
      var token := o.token(login);
      if token == "" then None else QueryGoData(pm, token, "api/outbreaks/" + pm.remoteProgram + "/cases")
  }

  /** The requests of the importer branch after the metadata reads. */
  function ImportTrace(pm: ProgramMapping, o: Oracles): seq<Request>
  {
    match LoginRequestFor(pm)
    case None => []
    case Some(login) =>
      match CasesQuery(pm, o)
      case None => [PostLogin(login)]
      case Some(cases) =>
        var qs := if o.answers(cases) then BatchQueries(o.uniqueValues(cases), pm.program) else [];
        [PostLogin(login), GoData(cases)] + seq(|qs|, i requires 0 <= i < |qs| => GetInstances(qs[i]))
  }

  /** The tracked entity instances the importer found, before `processPreviousInstances`. */
  function ImportFound(pm: ProgramMapping, o: Oracles): seq<TrackerSync.Instance>
  {
    match CasesQuery(pm, o)
    case None => []
    case Some(cases) =>
      if o.answers(cases) then Concat(Responses(BatchQueries(o.uniqueValues(cases), pm.program), o.instances)) else []
  }

  /** The exporter branch: log in, query the outbreak and its cases, and page through the program's instances. */
  method ExportBranch(pm: ProgramMapping, o: Oracles, fuel: nat) returns (trace: seq<Request>)
    ensures trace == ExportTrace(pm, o, fuel)
  {
    trace := [];
    var login := LoginRequestFor(pm);
    if login.None? {
      return;
    }
    trace := [PostLogin(login.value)];
    var token := o.token(login.value);
    if token == "" {
      return;
    }
    var outbreak := QueryGoData(pm, token, "api/outbreaks/" + pm.remoteProgram).value;
    var cases := QueryGoData(pm, token, "api/outbreaks/" + pm.remoteProgram + "/cases").value;
    trace := trace + [GoData(outbreak), GoData(cases)];
    var pages := [];
    if o.answers(outbreak) {
      pages := ExportPages(pm.program, o.pageSize, fuel);
    }
    trace := trace + seq(|pages|, i requires 0 <= i < |pages| => GetPage(pm.program, pages[i]));
  }

  /** The importer branch: log in, query the cases, and look up the instances that already exist. */
  method ImportBranch(pm: ProgramMapping, o: Oracles) returns (trace: seq<Request>, found: seq<TrackerSync.Instance>)
    ensures trace == ImportTrace(pm, o)
    ensures found == ImportFound(pm, o)
  {
    trace, found := [], [];
    var login := LoginRequestFor(pm);
    if login.None? {
      return;
    }
    trace := [PostLogin(login.value)];
    var token := o.token(login.value);
    if token == "" {
      return;
    }
    var cases := QueryGoData(pm, token, "api/outbreaks/" + pm.remoteProgram + "/cases").value;
    trace := trace + [GoData(cases)];
    var queries := [];
    if o.answers(cases) {
      queries, found := FindExisting(o.uniqueValues(cases), pm.program, o.instances);
    }
    trace := trace + seq(|queries|, i requires 0 <= i < |queries| => GetInstances(queries[i]));
  }

  /**
   * `processProgramMapping`: without credentials for the schedule nothing at
   * all; otherwise the metadata reads and then the branch the program mapping
   * selects. `found` is what the importer's look-up collected.
   */
  method Run(schedule: Record, logins: map<string, Credentials>, o: Oracles, fuel: nat)
    returns (trace: seq<Request>, found: seq<TrackerSync.Instance>)
    ensures CredentialKey(schedule) !in logins ==> trace == [] && found == []
    ensures CredentialKey(schedule) in logins ==>
      var pm := o.programMapping(MappingKey(schedule));
      && |trace| >= 5
      && trace[..5] == MetadataRequests(MappingKey(schedule), pm.program)
      && (Dispatch(pm) == Idle ==> |trace| == 5)
      && (Dispatch(pm) == Export ==> trace[5..] == ExportTrace(pm, o, fuel))
      && (Dispatch(pm) == Import ==> trace[5..] == ImportTrace(pm, o))
      && found == (if Dispatch(pm) == Import then ImportFound(pm, o) else [])
  {
    trace, found := [], [];
    if CredentialKey(schedule) !in logins {
      return;
    }
    var mapping := MappingKey(schedule);
    var pm := o.programMapping(mapping);
    var metadata := MetadataRequests(mapping, pm.program);
    var rest := [];
    match Dispatch(pm) {
      case Idle =>
      case Export =>
        rest := ExportBranch(pm, o, fuel);
      case Import =>
        rest, found := ImportBranch(pm, o);
    }
    assert |metadata| == 5;
    trace := metadata + rest;
    assert trace[..5] == metadata && trace[5..] == rest;
  }
}

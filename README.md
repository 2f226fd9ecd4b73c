# Schedule service and tracker synchronisation: a Dafny model

This project models the core of a small Node service built on moleculer. The
service keeps cron schedules for a data-import wizard and synchronises DHIS2
tracker data with Go.Data and with an upstream API.

- **The schedule store** (`ScheduleStore`). `write` keeps an ordered list of schedule
  records in schedules.json. It replaces the first record whose `id` matches
  with `{...schedule, ...update}`, or appends that merged record when none
  matches.
- **The schedule service** (`Scheduler`, class `Service`). It holds three pieces of
  state:
  - the local store: the list Node's module cache holds, and the file on disk;
  - the remote copies under `dataStore/iw-schedules/<id>`;
  - node-schedule's job registry.

  Its operations change that state: the `schedule` and `stop` actions, a job
  firing, and the replay of all stored schedules at start-up.
- **Record flattening** (`TrackerSync`). This is the field extraction in
  `syncTrackedEntityInstances`:
  - attributes become a dictionary with `""` defaults;
  - the enrollment in the requested program is selected;
  - its events are flattened and grouped by program stage;
  - the last lab request is picked;
  - the `|`-separated driver reference is split;
  - the organisation-unit filter `id:in:[...]` is built.
- **The sync orchestration** (`Orchestrator`). This is the control logic of
  `processProgramMapping`:
  - the credential guard;
  - the dispatch on `(isSource, dataSource, remoteProgram)`;
  - the Go.Data login and the rewrite of the authentication record;
  - the importer's batches of 50 unique values with one `attr:in:v1;v2` filter
    per attribute;
  - the exporter's page loop.

Records are `map<string, string>`, so the JavaScript spread `{...a, ...b}` is
`a + b`, and an absent field is an absent key. Remote calls (HTTP, the
dhis2.json credentials, node-schedule's cron parser and `nextInvocation`, dayjs
formatting, the `data-import-wizard-utils` converters) are parameters. They are
uninterpreted functions held in `const` fields or in an `Oracles` value. The
synchronisation a job fire runs is an opaque step that either completes or
fails.

The model keeps these behaviours of the code as written:

- A fire writes only the remote copy of the schedule. The local store keeps
  its `scheduled` status (`Scheduler.Service.Fire`).
- `stop` looks the job up by the request context's id and the stored
  schedule by `params.id` (`Scheduler.Service.StopAction`).
- Start-up registers a timer for every stored schedule, stopped ones included
  (`Scheduler.Service.Started`, `Scheduler.ReplayRegistersEverySchedule`).
- Both actions reply "Could not schedule with missing id field" whenever they resolve.
- `write` builds the replacement from the incoming schedule, so stored fields
  that neither the schedule nor the update carries are dropped
  (`ScheduleStore.UpsertDropsStoredFields`).
- `write` reads schedules.json through a cached dynamic `import`.
  - Replacing a record mutates the cached array, so later reads see the change.
  - Appending only rebinds a local variable, so the appended record reaches
    the file but not the cache, and later reads in the same process do not see
    it.

  `Scheduler.Service.Persist` keeps the two lists apart to make this visible.
- Two records without an `id` match each other (`undefined === undefined`).
  `IdOf` is therefore an `Option`, and `None` matches `None`.
- The exporter's `do ... while (loop)` sets `loop` to "the page was empty".
  It therefore stops right after the first non-empty page and runs forever
  while pages stay empty (`Orchestrator.PagesStopAfterFirstNonEmpty`).

## Model

| member | source | states |
|---|---|---|
| Records.Merge | services/schedule.service.ts:26 | `{...schedule, ...update}` has the keys of both, and update fields win |
| ScheduleStore.UpsertReplacesFirstMatch | services/schedule.service.ts:23-26 | with a matching id, the result is the list with only the first matching position replaced by the merge, with the same length and every other record in place |
| ScheduleStore.UpsertAppends | services/schedule.service.ts:27-35 | with no matching id, the result is the old list with exactly the merged record appended |
| ScheduleStore.FirstMatchExists | services/schedule.service.ts:23 | when some record carries the id, a first such position exists |
| ScheduleStore.UpsertDropsStoredFields | services/schedule.service.ts:26 | a stored field absent from both schedule and update is gone from the replaced record |
| ScheduleStore.UpsertKeepsIdsDistinct | services/schedule.service.ts:20-36 | an update that does not carry `id` keeps the stored ids distinct |
| ScheduleStore.UpsertIdempotent | services/schedule.service.ts:20-36 | writing the same schedule and update twice gives the same list as writing it once |
| ScheduleStore.Find | services/schedule.service.ts:125 | `find` yields nothing exactly when no record has the id; otherwise it yields the record at the first match |
| ScheduleStore.FindIndex | services/schedule.service.ts:23 | `findIndex` is -1 exactly when no record has the id; otherwise it is the first matching position |
| ScheduleStore.Write | services/schedule.service.ts:20-37 | the list written is the upsert of the stored list, and it replaced a record exactly when the id was present |
| Scheduler.RemotePut | services/schedule.service.ts:38-59 | with credentials for the id, the remote record under that id becomes the merge; without them the remote store is unchanged; other ids are never touched |
| Scheduler.ReplayRegistersEverySchedule | services/schedule.service.ts:159-169 | after the replay, every stored schedule whose spec parses has a job under its id, whatever its status, and the job holds the last such record with that id |
| Scheduler.ReplayKeepsOtherIds | services/schedule.service.ts:159-169 | the replay leaves the registry entry of an id that no registrable record carries as it was |
| Scheduler.Service.UpdateRemote | services/schedule.service.ts:38-59 | the remote store becomes the put of the merged record |
| Scheduler.Service.Persist | services/schedule.service.ts:20-37 | the file holds the upsert of the cached list; the cache follows only when a record was replaced in place |
| Scheduler.Service.CreateSchedule | services/schedule.service.ts:61-62 | a job is created exactly when the spec parses, and it is registered under the schedule's id |
| Scheduler.Service.ScheduleAction | services/schedule.service.ts:96-114 | state changes only with truthy `id` and `schedule`: then a job is registered, the remote copy gets `nextRun`, and the local store gets status `scheduled` with `nextRun`; an unparsable spec rejects before any store changes; the reply is always the missing-id message |
| Scheduler.Service.StopAction | services/schedule.service.ts:115-140 | only with a job under the context id and a stored schedule with `params.id`: both stores mark that schedule `stopped` and the job is cancelled; otherwise nothing changes; the reply is always the same message |
| Scheduler.Service.Fire | services/schedule.service.ts:61-76 | the remote copy is `running` with `lastRun` the fire time during the sync and `scheduled` after it (still `running` if the sync fails); the local store and the registry are untouched |
| Scheduler.Service.Started | services/schedule.service.ts:159-169 | the registry after start-up is the replay of every stored schedule in order |
| Seqs.Uniq | services/utils.ts:65-69 | lodash `uniq` has no duplicates and exactly the elements of its input |
| Seqs.FromPairsLastWins | services/utils.ts:96-100 | in lodash `fromPairs`, a key maps to the value of its last pair |
| Seqs.SplitJoin | services/utils.ts:133 | splitting a join of separator-free pieces gives the pieces back |
| Seqs.JoinSplit | services/utils.ts:133 | joining the pieces of a split with the separator gives the string back |
| Seqs.Chunks | services/utils.ts:328 | lodash `chunk` yields non-empty chunks of at most n, all but the last exactly n, that concatenate to the input |
| TrackerSync.AttributeRecord | services/utils.ts:96-100 | the attribute dictionary has a key exactly for each attribute id, `""` standing in for a missing id |
| TrackerSync.AttributeRecordLastWins | services/utils.ts:96-100 | each attribute id maps to the value of its last occurrence, `""` for a missing value |
| TrackerSync.FindEnrollment | services/utils.ts:102 | the selected enrollment is the first one in the requested program, and none is selected exactly when no enrollment is in it |
| TrackerSync.GroupByStageIsFilter | services/utils.ts:106-118 | grouping by `programStage` puts under each stage exactly that stage's flattened events in order, and creates no empty group |
| TrackerSync.LastOfStageIsLatest | services/utils.ts:127-128 | the last event of a stage is the latest flattened event with that stage |
| TrackerSync.LabRequestsIsLastLabEvent | services/utils.ts:102-129 | `labRequests` is the last `zKFHLSj6Wd1` event of the first enrollment in the program, and `{}` when there is none |
| TrackerSync.DriverId | services/utils.ts:131-139 | the driver id is `""` without the attribute, never contains `\|`, and is the whole text when that has no `\|` |
| TrackerSync.EacDriverId | services/utils.ts:131-139 | the split-and-pick computation equals the field rule: the third `\|`-field when there are more than two, otherwise the first |
| TrackerSync.DefaultedPart | services/utils.ts:147-174 | every defaulted payload field is present |
| TrackerSync.PayloadDefaultsEachField | services/utils.ts:147-174 | each defaulted payload field carries `data[key] \|\| ""` for its own key, with nothing overriding it |
| TrackerSync.InstanceDataLayers | services/utils.ts:96-120 | a key of `data` holds its attribute value unless the first enrollment in the program has a field of that name, and that unless it has events of a stage of that name, which then holds them in order; without such an enrollment `data` is the attributes |
| TrackerSync.OptionalPartFields | services/utils.ts:142-146 | `screenerName`, `organisation`, `organisationId`, `sampleCollectionDate` and `sampleCollectionLocation` are present exactly when their source value is defined, and carry it; `organisation` is the name `organisations` gives for `data.orgUnit` |
| TrackerSync.PayloadOptionalField | services/utils.ts:141-181 | in the posted object those five fields come from their source values untouched, since no defaulted or computed field shares their names |
| TrackerSync.PayloadKeys | services/utils.ts:141-181 | apart from the left-out `age`, no key other than the named payload fields is posted |
| TrackerSync.Payload | services/utils.ts:141-181 | the posted object has every defaulted field, `ageUnits` is `Years`, and `eacDriverId`, `sampleType` and `testType` come from the driver rule and the last lab request |
| TrackerSync.OrgUnitFilterListsEachOnce | services/utils.ts:65-69 | between `id:in:[` and `]` the filter lists every org unit of the instances exactly once |
| TrackerSync.Sync | services/utils.ts:60-95 | no instance means no org-unit query; otherwise the query carries the org-unit filter of the instances, and one payload per instance is posted, in order |
| Orchestrator.Dispatch | services/utils.ts:268-372 | the exporter runs exactly for a Go.Data source with a remote program, and the importer exactly for a Go.Data target with one; `dhis2` and `api` do nothing |
| Orchestrator.LoginRequestFor | services/utils.ts:192-203 | a login is posted exactly when authentication is present, to the authentication minus the destructured fields, with its user name and password |
| Orchestrator.QueryGoData | services/utils.ts:205-229 | a query is made exactly with a non-empty token and authentication; it has basic auth off, no user name, password or next-link flag, the original headers, and the params extended with `auth` = access token |
| Orchestrator.PagesStopAfterFirstNonEmpty | services/utils.ts:286-305 | the pages requested are 1, 2, ... in order, every one but the last was empty, and the loop ends early only on a non-empty page |
| Orchestrator.ExportPages | services/utils.ts:273-305 | the `do ... while` loop requests exactly the pages the page rule gives |
| Orchestrator.RenderedValuesSplitBack | services/utils.ts:332-337 | the values of a rendered `attr:in:v1;...;vk` filter split back into exactly the values |
| Orchestrator.ValuesOf | services/utils.ts:330-337 | an attribute's values include every value of that attribute in the batch, and only such values |
| Orchestrator.ValuesOfSnoc | services/utils.ts:330-337 | a value added at the end of the batch goes at the end of its own attribute's values and leaves the other attributes' values alone, which fixes their order and multiplicity |
| Orchestrator.GroupValuesIsFilter | services/utils.ts:330-337 | lodash `groupBy`, pushing row by row, files under each attribute exactly that attribute's values in their original order, and creates no empty group |
| Orchestrator.FiltersDistinct | services/utils.ts:330-339 | no attribute gets two filters in one batch |
| Orchestrator.FiltersCoverBatch | services/utils.ts:330-339 | the filters are for exactly the attributes of the batch: every attribute of the batch has one, and no filter is for an attribute absent from it |
| Orchestrator.FiltersListValues | services/utils.ts:330-337 | the values of each filter, taken from the grouping, are its attribute's values in the batch in their original order |
| Orchestrator.ImporterAsksForEveryValue | services/utils.ts:328-339 | the batches of at most 50 concatenate to the unique values, and every value appears in a filter for its attribute in some batch |
| Orchestrator.FindExisting | services/utils.ts:326-349 | one query per batch in batch order, and `foundInstances` is the concatenation of the responses in that order |
| Orchestrator.ExportBranch | services/utils.ts:270-307 | the exporter's requests: login, and with a token the outbreak and cases queries, then the page loop when the outbreak came back |
| Orchestrator.ImportBranch | services/utils.ts:312-349 | the importer's requests: login, and with a token the cases query, then one instance query per batch when cases came back |
| Orchestrator.Run | services/utils.ts:231-373 | without credentials for the schedule id nothing is requested; otherwise the five metadata reads come first, followed by the exporter's or importer's requests, or nothing more |

## Left out

- HTTP calls (axios `get`/`put`/`post`, `postRemote`, `fetchRemote`) are oracles. A failed call would reject the handler part-way; the model assumes every call returns.
- node-schedule's cron parsing and `nextInvocation` are the uninterpreted `parses` and `nextInvocation`. The library is not part of this model, and two assumptions stand in for it:
  - When a job is registered under a name that is already taken, the registry records the new job; what becomes of the old timer is not modelled.
  - `scheduleJob` with a missing or empty id registers nothing and does not throw. Should it throw instead, `started` would stop at the first such stored record, while `Replay` skips the record and goes on.
- dayjs formatting: timestamps are opaque strings.
- Scheduler.Service.ScheduleAction: each handler runs atomically with one instant `now`. In the source an awaited PUT separates the two `job.nextInvocation()` calls, and a fire in between could make the remote and local `nextRun` differ; the model does not capture that interleaving.
- Scheduler.Service.Fire: the fire runs atomically. In the source the sync is awaited between the two PUTs. A `stop` in that window marks the remote copy `stopped` and cancels the job, and the second PUT then writes `scheduled` over it. The model cannot show that interleaving.
- TrackerSync.Payload: leaves out `age` (`Number(years).toFixed(0)` is floating point) and `district` (always `undefined`, from the unused `districts`/`calculatedDistricts` code).
- TrackerSync.Payload: a value of the flattened dictionary is a string or a list of events. Non-string JSON values, `null`, and the enrollment's nested arrays other than events are not modelled.
- The `async forEach` that posts the payloads runs concurrently and is not awaited. The model lists the posts in instance order.
- The `data-import-wizard-utils` functions are outside the model. `findUniqAttributes` is the `uniqueValues` oracle. The results of `convertToGoData`, `convertToDHIS2`, `processPreviousInstances`, `makeValidation` and the `program*Uniq*` helpers are never used by the control logic, so they are left out.
- The `fields` query parameter of the program read is not recorded in the request trace.
- Orchestrator.Filters: lists the filters in order of first occurrence. JavaScript's `Object.entries` puts integer-like attribute names first, and that ordering is not modelled.
- Orchestrator.ExportPages: at most `fuel` pages are requested. The source loops for ever while pages stay empty.
- The moleculer service schema, the `created`/`stopped` hooks and the REST routes are framework plumbing.

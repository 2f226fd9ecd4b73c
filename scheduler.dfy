/**
 * The schedule service (services/schedule.service.ts): the node-schedule job
 * registry, the local schedule store and the remote copy of each schedule, and
 * the state changes made by the `schedule` and `stop` actions, by a job firing
 * and by the replay at start-up.
 */
module Scheduler {
  import opened Wrappers
  import opened Records
  import ScheduleStore

  /** A time as `dayjs(...).format("YYYY-MM-DD HH:mm:ss")` renders it; opaque here. */
  type Stamp = string

  /** A registered node-schedule job and the schedule record its callback captured. */
  datatype Job = Job(schedule: Record)

  /** What an action handler resolves to: a reply message, or a rejected promise. */
  datatype Reply = Message(text: string) | Rejected

  /** The one reply both actions give, whatever happened. */
  const MissingIdMessage := "Could not schedule with missing id field"

  /** The cron spec handed to `scheduleJob`: `schedule.schedule || ""`. */
  function Spec(r: Record): string
  {
    if "schedule" in r then r["schedule"] else ""
  }

  /** The property key `schedule.id` turns into when used to index an object. */
  function PropertyKey(r: Record): string
  {
    if "id" in r then r["id"] else "undefined"
  }

  /**
   * The remote store after `updateDHIS2(schedule, update)`: when dhis2.json has
   * credentials under the schedule's id, the record under that id becomes
   * `{...schedule, ...update}`; otherwise the remote store is not touched.
   */
  function RemotePut(remote: map<string, Record>, logins: map<string, Credentials>, schedule: Record, update: Record): (r: map<string, Record>)
    ensures PropertyKey(schedule) !in logins ==> r == remote
    ensures PropertyKey(schedule) in logins ==> r.Keys == remote.Keys + {PropertyKey(schedule)}
    ensures PropertyKey(schedule) in logins ==> r[PropertyKey(schedule)] == Merge(schedule, update)
    ensures forall k :: k in remote && k != PropertyKey(schedule) ==> k in r && r[k] == remote[k]
  {
    if PropertyKey(schedule) in logins then remote[PropertyKey(schedule) := Merge(schedule, update)] else remote
  }

  /**
   * The registry after `createSchedule(r)`: node-schedule registers a job under
   * its name when the spec parses; a record without a (non-empty) id gets an
   * anonymous name that no schedule id reaches.
   */
  function Register(jobs: map<string, Job>, r: Record, parses: string -> bool): map<string, Job>
  {
    if Registrable(r, parses) then jobs[r["id"] := Job(r)] else jobs
  }

  /** The registry after `createSchedule` has run for each record of `rs`, in order. */
  function Replay(jobs: map<string, Job>, rs: seq<Record>, parses: string -> bool): map<string, Job>
  {
    if rs == [] then jobs else Register(Replay(jobs, rs[..|rs| - 1], parses), rs[|rs| - 1], parses)
  }

  /** A record the replay registers a timer for. */
  predicate Registrable(r: Record, parses: string -> bool)
  {
    parses(Spec(r)) && Truthy(r, "id")
  }

  /**
   * Start-up creates a timer for every stored schedule whose spec parses,
   * whatever its status (a stopped schedule too), and the timer under an id is
   * the one for the last such record carrying that id.
   */
  lemma {:induction false} ReplayRegistersEverySchedule(jobs: map<string, Job>, rs: seq<Record>, parses: string -> bool, i: int)
    requires 0 <= i < |rs| && Registrable(rs[i], parses)
    requires forall j :: i < j < |rs| && Registrable(rs[j], parses) ==> rs[j]["id"] != rs[i]["id"]
    ensures rs[i]["id"] in Replay(jobs, rs, parses)
    ensures Replay(jobs, rs, parses)[rs[i]["id"]] == Job(rs[i])
  {
    if i < |rs| - 1 {
      var init := rs[..|rs| - 1];
      assert init[i] == rs[i];
      ReplayRegistersEverySchedule(jobs, init, parses, i);
    }
  }

  /** The replay leaves an id that no registrable record carries as it was. */
  lemma {:induction false} ReplayKeepsOtherIds(jobs: map<string, Job>, rs: seq<Record>, parses: string -> bool, id: string)
    requires forall j :: 0 <= j < |rs| && Registrable(rs[j], parses) ==> rs[j]["id"] != id
    ensures id in Replay(jobs, rs, parses) <==> id in jobs
    ensures id in jobs ==> Replay(jobs, rs, parses)[id] == jobs[id]
  {
    if rs != [] {
      ReplayKeepsOtherIds(jobs, rs[..|rs| - 1], parses, id);
    }
  }

  /**
   * The service with its three pieces of state: the local store, the remote
   * copies and node-schedule's registry `scheduledJobs`.
   */
  class Service {
    /** The list `import("./schedules.json")` yields: Node's module cache, loaded once per process. */
    var cached: seq<Record>
    /** The contents of schedules.json on disk, rewritten by every `write`. */
    var file: seq<Record>
    /** `dataStore/iw-schedules/<id>` on the DHIS2 instance dhis2.json gives for the id. */
    var remote: map<string, Record>
    /** node-schedule's `scheduledJobs`: job name to registered job. */
    var jobs: map<string, Job>
    /** dhis2.json: credentials by schedule id. */
    const logins: map<string, Credentials>
    /** Whether node-schedule accepts a spec (otherwise `scheduleJob` returns null). */
    const parses: string -> bool
    /** `job.nextInvocation()` for a spec at an instant, formatted. */
    const nextInvocation: (string, Stamp) -> Stamp

    /** Every job sits under the id of the schedule it captured, and its spec parsed. */
    ghost predicate Valid()
      reads this
    {
      forall id :: id in jobs ==> IdOf(jobs[id].schedule) == Some(id) && parses(Spec(jobs[id].schedule))
    }

    /** The process starts with schedules.json as stored and no job registered. */
    constructor (stored: seq<Record>, remote: map<string, Record>, logins: map<string, Credentials>,
                 parses: string -> bool, nextInvocation: (string, Stamp) -> Stamp)
      ensures Valid()
      ensures cached == stored && file == stored && this.remote == remote && jobs == map[]
      ensures this.logins == logins && this.parses == parses && this.nextInvocation == nextInvocation
    {
      cached, file := stored, stored;
      this.remote := remote;
      jobs := map[];
      this.logins, this.parses, this.nextInvocation := logins, parses, nextInvocation;
    }

    /** `updateDHIS2`: PUT the merged record under the schedule's id, when credentials exist. */
    method UpdateRemote(schedule: Record, update: Record)
      modifies this`remote
      ensures remote == RemotePut(old(remote), logins, schedule, update)
    {
      var key := PropertyKey(schedule);
      if key in logins {
        remote := remote[key := Merge(schedule, update)];
      }
    }

    /**
     * `write` against the module cache: the file receives the upserted list; the
     * cached list changes with it only when a record was replaced in place, an
     * appended record reaches the file but not the cache.
     */
    method Persist(schedule: Record, update: Record)
      modifies this`cached, this`file
      ensures file == ScheduleStore.Upsert(old(cached), schedule, update)
      ensures cached == if ScheduleStore.HasId(old(cached), IdOf(schedule)) then file else old(cached)
    {
      var written, replaced := ScheduleStore.Write(cached, schedule, update);
      file := written;
      if replaced {
        cached := written;
      }
    }

    /** `createSchedule`: `scheduleJob(schedule.id, schedule.schedule || "", onFire)`. */
    method CreateSchedule(schedule: Record) returns (created: bool)
      requires Valid()
      modifies this`jobs
      ensures Valid()
      ensures created <==> parses(Spec(schedule))
      ensures jobs == Register(old(jobs), schedule, parses)
    {
      created := parses(Spec(schedule));
      if created && Truthy(schedule, "id") {
        jobs := jobs[schedule["id"] := Job(schedule)];
      }
    }

    /**
     * The `schedule` action. Only with a truthy `id` and `schedule` does it do
     * anything: register the job, PUT `nextRun` remotely (the remote status is
     * whatever the request carried) and write status `scheduled` with `nextRun`
     * locally. A spec node-schedule refuses makes `job.nextInvocation()` throw
     * before any store is touched. Otherwise the reply is the same message.
     */
    method ScheduleAction(params: Record, now: Stamp) returns (reply: Reply)
      requires Valid()
      modifies this
      ensures Valid()
      ensures !(Truthy(params, "id") && Truthy(params, "schedule")) ==>
        reply == Message(MissingIdMessage) && unchanged(this)
      ensures Truthy(params, "id") && Truthy(params, "schedule") && !parses(params["schedule"]) ==>
        reply == Rejected && unchanged(this)
      ensures Truthy(params, "id") && Truthy(params, "schedule") && parses(params["schedule"]) ==>
        var next := nextInvocation(params["schedule"], now);
        var local := map["status" := "scheduled", "nextRun" := next];
        && reply == Message(MissingIdMessage)
        && jobs == old(jobs)[params["id"] := Job(params)]
        && remote == RemotePut(old(remote), logins, params, map["nextRun" := next])
        && file == ScheduleStore.Upsert(old(cached), params, local)
        && cached == (if ScheduleStore.HasId(old(cached), IdOf(params)) then file else old(cached))
    {
      if Truthy(params, "id") && Truthy(params, "schedule") {
        var created := CreateSchedule(params);
        if !created {
          return Rejected;
        }
        var next := nextInvocation(params["schedule"], now);
        UpdateRemote(params, map["nextRun" := next]);
        Persist(params, map["status" := "scheduled", "nextRun" := next]);
      }
      reply := Message(MissingIdMessage);
    }

    /**
     * The `stop` action. The job is looked up under the request context's id
     * `ctxId`, the stored schedule under `params.id`; only when both exist does
     * it mark that schedule `stopped` remotely and locally and cancel the job
     * found under `ctxId`. The reply is always the same message.
     */
    method StopAction(ctxId: string, params: Record) returns (reply: Reply)
      requires Valid()
      modifies this
      ensures Valid()
      ensures reply == Message(MissingIdMessage)
      ensures !(Truthy(params, "id") && ctxId in old(jobs) && ScheduleStore.HasId(old(cached), Some(params["id"]))) ==>
        unchanged(this)
      ensures Truthy(params, "id") && ctxId in old(jobs) && ScheduleStore.HasId(old(cached), Some(params["id"])) ==>
        var stored := ScheduleStore.Find(old(cached), Some(params["id"])).value;
        var stopped := map["status" := "stopped"];
        && remote == RemotePut(old(remote), logins, stored, stopped)
        && file == ScheduleStore.Upsert(old(cached), stored, stopped)
        && cached == file
        && jobs == old(jobs) - {ctxId}
    {
      if Truthy(params, "id") && ctxId in jobs {
        var found := ScheduleStore.Find(cached, Some(params["id"]));
        if found.Some? {
          var stopped := map["status" := "stopped"];
          UpdateRemote(found.value, stopped);
          assert ScheduleStore.HasId(cached, IdOf(found.value));
          Persist(found.value, stopped);
          jobs := jobs - {ctxId};
        }
      }
      reply := Message(MissingIdMessage);
    }

    /**
     * A firing of the job registered under `id`. Before the synchronisation the
     * remote copy becomes `running` with `lastRun` the fire time, and after it
     * `scheduled` again; when the synchronisation (opaque here) fails, the
     * second write never happens. Neither the local store nor the registry
     * changes. `running` is the remote record while the synchronisation runs.
     */
    method Fire(id: string, firedAt: Stamp, finishedAt: Stamp, syncFailed: bool) returns (running: Option<Record>)
      requires Valid() && id in jobs
      modifies this`remote
      ensures Valid()
      ensures
        var s := jobs[id].schedule;
        var before := map["status" := "running", "nextRun" := nextInvocation(Spec(s), firedAt), "lastRun" := firedAt];
        var after := map["status" := "scheduled", "nextRun" := nextInvocation(Spec(s), finishedAt), "lastRun" := firedAt];
        && running == (if id in logins then Some(Merge(s, before)) else None)
        && remote == (if syncFailed then RemotePut(old(remote), logins, s, before)
                      else RemotePut(old(remote), logins, s, after))
    {
      var s := jobs[id].schedule;
      var spec := Spec(s);
      UpdateRemote(s, map["status" := "running", "nextRun" := nextInvocation(spec, firedAt), "lastRun" := firedAt]);
      running := if id in remote && id in logins then Some(remote[id]) else None;
      if !syncFailed {
        UpdateRemote(s, map["status" := "scheduled", "nextRun" := nextInvocation(spec, finishedAt), "lastRun" := firedAt]);
      }
    }

    /** The `started` hook: `createSchedule` for every stored schedule, in order, stopped or not. */
    method Started()
      requires Valid()
      modifies this`jobs
      ensures Valid()
      ensures jobs == Replay(old(jobs), cached, parses)
    {
      var i := 0;
      while i < |cached|
        invariant 0 <= i <= |cached|
        invariant Valid()
        invariant jobs == Replay(old(jobs), cached[..i], parses)
      {
        assert cached[..i + 1][..i] == cached[..i];
        var _ := CreateSchedule(cached[i]);
        i := i + 1;
      }
      assert cached[..i] == cached;
    }
  }
}

/**
 * The local schedule store (`write` in services/schedule.service.ts): an
 * ordered list of schedule records, upserted by id.
 */
module ScheduleStore {
  import opened Wrappers
  import opened Records

  /** Some record of `rs` carries `id`. */
  predicate HasId(rs: seq<Record>, id: Option<string>)
  {
    exists j :: 0 <= j < |rs| && IdOf(rs[j]) == id
  }

  /** `i` is the first position of `rs` whose record carries `id` (what `findIndex` looks for). */
  predicate IsFirstMatch(rs: seq<Record>, id: Option<string>, i: int)
  {
    && 0 <= i < |rs|
    && IdOf(rs[i]) == id
    && forall j :: 0 <= j < i ==> IdOf(rs[j]) != id
  }

  /** No two records of the store carry the same id. */
  predicate DistinctIds(rs: seq<Record>)
  {
    forall i, j :: 0 <= i < j < |rs| ==> IdOf(rs[i]) != IdOf(rs[j])
  }

  /**
   * Reference definition of the upsert, record by record: the first record with
   * the schedule's id becomes `{...schedule, ...update}`; with no such record,
   * that merged record goes at the end.
   */
  function Upsert(rs: seq<Record>, schedule: Record, update: Record): seq<Record>
  {
    if rs == [] then [Merge(schedule, update)]
    else if IdOf(rs[0]) == IdOf(schedule) then [Merge(schedule, update)] + rs[1..]
    else [rs[0]] + Upsert(rs[1..], schedule, update)
  }

  /** With a record carrying the id, the upsert replaces the first one and touches nothing else. */
  lemma {:induction false} UpsertReplacesFirstMatch(rs: seq<Record>, schedule: Record, update: Record, i: int)
    requires IsFirstMatch(rs, IdOf(schedule), i)
    ensures Upsert(rs, schedule, update) == rs[i := Merge(schedule, update)]
  {
    if i > 0 {
      UpsertReplacesFirstMatch(rs[1..], schedule, update, i - 1);
      assert rs == [rs[0]] + rs[1..];
    }
  }

  /** With no record carrying the id, the upsert appends exactly the merged record. */
  lemma {:induction false} UpsertAppends(rs: seq<Record>, schedule: Record, update: Record)
    requires !HasId(rs, IdOf(schedule))
    ensures Upsert(rs, schedule, update) == rs + [Merge(schedule, update)]
  {
    if rs != [] {
      assert IdOf(rs[0]) != IdOf(schedule);
      assert !HasId(rs[1..], IdOf(schedule)) by {
        forall j | 0 <= j < |rs[1..]| ensures IdOf(rs[1..][j]) != IdOf(schedule) {
          assert rs[1..][j] == rs[j + 1];
        }
      }
      UpsertAppends(rs[1..], schedule, update);
      assert rs == [rs[0]] + rs[1..];
    }
  }

  /** There is always a first match when some record carries the id. */
  lemma {:induction false} FirstMatchExists(rs: seq<Record>, id: Option<string>) returns (i: int)
    requires HasId(rs, id)
    ensures IsFirstMatch(rs, id, i)
  {
    if IdOf(rs[0]) == id {
      i := 0;
    } else {
      assert HasId(rs[1..], id) by {
        var j :| 0 <= j < |rs| && IdOf(rs[j]) == id;
        assert rs[1..][j - 1] == rs[j];
      }
      var k := FirstMatchExists(rs[1..], id);
      i := k + 1;
    }
  }

  /**
   * The replacement is built from the incoming schedule, not from the stored
   * record: a stored field that neither the schedule nor the update has is lost.
   */
  lemma UpsertDropsStoredFields(rs: seq<Record>, schedule: Record, update: Record, i: int, field: string)
    requires IsFirstMatch(rs, IdOf(schedule), i)
    requires field in rs[i] && field !in schedule && field !in update
    ensures |Upsert(rs, schedule, update)| == |rs|
    ensures field !in Upsert(rs, schedule, update)[i]
  {
    UpsertReplacesFirstMatch(rs, schedule, update, i);
  }

  /** An update that does not set `id` keeps the ids of the store distinct. */
  lemma UpsertKeepsIdsDistinct(rs: seq<Record>, schedule: Record, update: Record)
    requires DistinctIds(rs)
    requires "id" !in update
    ensures DistinctIds(Upsert(rs, schedule, update))
  {
    assert IdOf(Merge(schedule, update)) == IdOf(schedule);
    if HasId(rs, IdOf(schedule)) {
      var i := FirstMatchExists(rs, IdOf(schedule));
      UpsertReplacesFirstMatch(rs, schedule, update, i);
    } else {
      UpsertAppends(rs, schedule, update);
    }
  }

  /** Writing the same schedule and update twice gives the store that writing it once gives. */
  lemma {:induction false} UpsertIdempotent(rs: seq<Record>, schedule: Record, update: Record)
    requires "id" !in update
    ensures Upsert(Upsert(rs, schedule, update), schedule, update) == Upsert(rs, schedule, update)
  {
    var merged := Merge(schedule, update);
    assert IdOf(merged) == IdOf(schedule);
    var once := Upsert(rs, schedule, update);
    if HasId(rs, IdOf(schedule)) {
      var i := FirstMatchExists(rs, IdOf(schedule));
      UpsertReplacesFirstMatch(rs, schedule, update, i);
      assert IsFirstMatch(once, IdOf(schedule), i);
      UpsertReplacesFirstMatch(once, schedule, update, i);
    } else {
      UpsertAppends(rs, schedule, update);
      assert IsFirstMatch(once, IdOf(schedule), |rs|);
      UpsertReplacesFirstMatch(once, schedule, update, |rs|);
    }
  }

  /** `find(({ id }) => id === wanted)`: the first record carrying the id, if any. */
  function Find(rs: seq<Record>, id: Option<string>): (r: Option<Record>)
    ensures r.None? <==> !HasId(rs, id)
    ensures r.Some? ==> IdOf(r.value) == id
    ensures r.Some? ==> forall i :: IsFirstMatch(rs, id, i) ==> rs[i] == r.value
  {
    if rs == [] then None
    else if IdOf(rs[0]) == id then Some(rs[0])
    else
      var r := Find(rs[1..], id);
      assert forall i :: IsFirstMatch(rs, id, i) ==> IsFirstMatch(rs[1..], id, i - 1);
      assert HasId(rs, id) ==> HasId(rs[1..], id) by {
        if HasId(rs, id) {
          var j :| 0 <= j < |rs| && IdOf(rs[j]) == id;
          assert rs[1..][j - 1] == rs[j];
        }
      }
      r
  }

  /** `findIndex(({ id }) => id === schedule.id)`: the first position with the id, or -1. */
  method FindIndex(rs: seq<Record>, id: Option<string>) returns (index: int)
    ensures index == -1 <==> !HasId(rs, id)
    ensures index != -1 ==> IsFirstMatch(rs, id, index)
  {
    index := 0;
    while index < |rs|
      invariant 0 <= index <= |rs|
      invariant forall j :: 0 <= j < index ==> IdOf(rs[j]) != id
    {
      if IdOf(rs[index]) == id {
        return;
      }
      index := index + 1;
    }
    index := -1;
  }

  /**
   * `write`: take the loaded list, replace the first record with the schedule's
   * id by `{...schedule, ...update}` or append that record, and hand back the
   * list to store. `replaced` tells which branch ran (the source mutates the
   * loaded list in that branch and builds a new one in the other).
   */
  method Write(stored: seq<Record>, schedule: Record, update: Record) returns (written: seq<Record>, replaced: bool)
    ensures written == Upsert(stored, schedule, update)
    ensures replaced <==> HasId(stored, IdOf(schedule))
  {
    var index := FindIndex(stored, IdOf(schedule));
    if index != -1 {
      UpsertReplacesFirstMatch(stored, schedule, update, index);
      written := stored[index := Merge(schedule, update)];
      replaced := true;
    } else {
      UpsertAppends(stored, schedule, update);
      written := stored + [Merge(schedule, update)];
      replaced := false;
    }
  }
}

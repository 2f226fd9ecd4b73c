/**
 * JSON objects as the service handles them: a schedule record, a partial
 * update, an enrollment's fields. A field that is absent is `undefined`.
 */
module Records {
  import opened Wrappers

  type Record = map<string, string>

  /** The spread `{...base, ...update}`: every field of both, the update's value where both have one. */
  function Merge(base: Record, update: Record): (r: Record)
    ensures r.Keys == base.Keys + update.Keys
    ensures forall k :: k in update ==> r[k] == update[k]
    ensures forall k :: k in base && k !in update ==> r[k] == base[k]
  {
    base + update
  }

  /** Property access `r[field]`: the value, or `None` for `undefined`. */
  function Get(r: Record, field: string): Option<string>
  {
    if field in r then Some(r[field]) else None
  }

  /** `r.id`, compared with `===`, so two records without an id have the same (undefined) id. */
  function IdOf(r: Record): Option<string>
  {
    Get(r, "id")
  }

  /** A DHIS2 instance's entry in dhis2.json, keyed by schedule id. */
  datatype Credentials = Credentials(url: string, username: string, password: string)

  /** JavaScript truthiness of a string field: present and not the empty string. */
  predicate Truthy(r: Record, field: string)
  {
    field in r && r[field] != ""
  }
}

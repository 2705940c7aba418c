/** The usual optional value: what `Array.prototype.find` returns (`undefined` or an element). */
module Wrappers {
  datatype Option<+T> = None | Some(value: T)
}

/**
 * The records every store keeps. A record is a JavaScript object with an `id`
 * property; its other properties are kept by name, with opaque values, so that
 * object spread (`{ ...a, ...b }`) can be stated exactly.
 */
module Records {
  import opened Wrappers

  type Id = string

  /** The property values the ledger's records hold. */
  datatype Value =
    | Undefined
    | Null
    | Bool(b: bool)
    | Num(n: int)                        // amounts in cents, sort orders, balances
    | Str(s: string)
    | StrList(list: seq<string>)         // `tags`, `images`
    | LocalTime(date: string, time: string)
      // `toTimestamp(date, time)`: a local-time instant, left unevaluated

  /** A stored record: its `id` and every other property by name. */
  datatype Record = Record(id: Id, fields: map<string, Value>)

  /** A `Partial<T>`: any subset of a record's properties, `id` included. */
  type Changes = map<string, Value>

  /** The named property when it holds a string (not `null`, absent or of another kind). */
  function StringProp(r: Record, name: string): Option<string> {
    if name in r.fields && r.fields[name].Str? then Some(r.fields[name].s) else None
  }

  /** The `id` is held only in `Record.id`, never a second time among the properties. */
  predicate WellFormed(r: Record) {
    "id" !in r.fields
  }

  /**
   * `{ ...current, ...changes, id: current.id }`: every property named in
   * `changes` overwrites the current one, every other property is kept, and the
   * `id` stays the current one whatever `changes` says about it.
   */
  function Merge(current: Record, changes: Changes): (r: Record)
    ensures r.id == current.id
    ensures r.fields.Keys == current.fields.Keys + (changes.Keys - {"id"})
    ensures forall k :: k in r.fields ==>
      r.fields[k] == (if k in changes && k != "id" then changes[k] else current.fields[k])
    ensures WellFormed(current) ==> WellFormed(r)
  {
    Record(current.id, current.fields + (changes - {"id"}))
  }

  /** Whatever `id` the changes carry, or none, the merge comes out the same. */
  lemma MergeIgnoresChangedId(current: Record, changes: Changes, other: Value)
    ensures Merge(current, changes["id" := other]) == Merge(current, changes)
  {
  }
}

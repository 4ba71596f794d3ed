/** The constant lookup tables of the app (object literals such as
    `Record<string, number>`), as association lists from keys to values. */
module Tables {
  import opened Types

  /** The entries of an object literal, in the order they are written. */
  datatype Table<V> = Empty | Entry(key: string, value: V, rest: Table<V>)

  /** The keys of a table, in order. */
  function Names<V>(t: Table<V>): seq<string>
  {
    if t.Empty? then [] else [t.key] + Names(t.rest)
  }

  /** Whether the pair (key, value) is an entry of the table. */
  ghost predicate HasEntry<V>(t: Table<V>, key: string, value: V)
  {
    t.Entry? && ((t.key == key && t.value == value) || HasEntry(t.rest, key, value))
  }

  /** Whether every value of the table satisfies P. */
  predicate AllValues<V>(t: Table<V>, P: V -> bool)
  {
    t.Empty? || (P(t.value) && AllValues(t.rest, P))
  }

  /** `t[key]`: the value of the first entry under `key`, if there is one. */
  function Lookup<V>(t: Table<V>, key: string): Option<V>
  {
    if t.Empty? then None
    else if t.key == key then Some(t.value)
    else Lookup(t.rest, key)
  }

  /** `t[key] || fallback` for a table whose values are all truthy. */
  function LookupOr<V>(t: Table<V>, key: string, fallback: V): V {
    match Lookup(t, key)
    case Some(v) => v
    case None => fallback
  }

  /** `t[key]` for a key the table is known to hold. */
  function Get<V>(t: Table<V>, key: string): V
    requires key in Names(t)
  {
    LookupSpec(t, key);
    Lookup(t, key).value
  }

  /** A key is found exactly when it is one of the table's keys. */
  lemma {:induction false} LookupSpec<V>(t: Table<V>, key: string)
    ensures Lookup(t, key).Some? <==> key in Names(t)
  {
    if t.Entry? {
      LookupSpec(t.rest, key);
    }
  }

  /** What a lookup finds is an entry of the table. */
  lemma {:induction false} LookupFinds<V>(t: Table<V>, key: string)
    ensures Lookup(t, key).Some? ==> HasEntry(t, key, Lookup(t, key).value)
  {
    if t.Entry? && t.key != key {
      LookupFinds(t.rest, key);
    }
  }

  /** A property of every value of a table holds of whatever a lookup finds. */
  lemma {:induction false} LookupKeeps<V>(t: Table<V>, key: string, P: V -> bool)
    requires AllValues(t, P)
    ensures Lookup(t, key).Some? ==> P(Lookup(t, key).value)
  {
    if t.Entry? && t.key != key {
      LookupKeeps(t.rest, key, P);
    }
  }
}

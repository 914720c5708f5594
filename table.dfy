/**
 The primary-key index operations the reducers call on a table (`find`,
 `insert`, `update`, `delete`). The host rejects an `insert` whose key is
 already present and an `update` whose key is absent; those demands are the
 preconditions here, and the reducers' `find` guards meet them.
 */
module Table {
  import opened Rows

  /** `find` on the primary key. */
  function Find<R>(m: map<string, R>, key: string): (r: Option<R>)
    ensures r.Some? <==> key in m
    ensures r.Some? ==> r.value == m[key]
  {
    if key in m then Some(m[key]) else None
  }

  /** `insert` of a row whose primary key is `key`. */
  function Insert<R>(m: map<string, R>, key: string, row: R): (r: map<string, R>)
    requires key !in m
    ensures r.Keys == m.Keys + {key}
    ensures r[key] == row
    ensures forall k :: k in m ==> r[k] == m[k]
  {
    m[key := row]
  }

  /** `update` through the primary key of `row`, which is `key`. */
  function Update<R>(m: map<string, R>, key: string, row: R): (r: map<string, R>)
    requires key in m
    ensures r.Keys == m.Keys
    ensures r[key] == row
    ensures forall k :: k in m && k != key ==> r[k] == m[k]
  {
    m[key := row]
  }

  /** `delete` through the primary key; a missing key is not an error. */
  function Delete<R>(m: map<string, R>, key: string): (r: map<string, R>)
    ensures r.Keys == m.Keys - {key}
    ensures forall k :: k in r ==> r[k] == m[k]
  {
    m - {key}
  }
}

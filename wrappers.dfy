/** Values shared by every screen model: optional values, thrown JavaScript
    values and the shape of a backend query result. */
module Wrappers {

  /** A value that may be absent (`null` / `undefined` in the client). */
  datatype Option<+T> = None | Some(value: T)

  /** A value thrown by a backend call or by the client itself. Only an `Error`
      object carries a message; the client falls back to a fixed text for any
      other thrown value (`error instanceof Error ? error.message : …`). */
  datatype Thrown = ErrorObj(message: string) | NonError

  /** The result of one table query: either the call failed, or it returned
      `data` (possibly `null`) and an exact row `count` (possibly `null`). */
  datatype QueryResult<+T> =
    | QueryFailed(error: Thrown)
    | QueryOk(data: Option<seq<T>>, count: Option<int>)

  /** `data || []` */
  function RowsOrEmpty<T>(data: Option<seq<T>>): seq<T>
  {
    match data
    case Some(rows) => rows
    case None => []
  }

  /** `count || 0` */
  function CountOrZero(count: Option<int>): int
  {
    match count
    case Some(n) => n
    case None => 0
  }

  function Min(a: nat, b: nat): (m: nat)
    ensures m <= a && m <= b && (m == a || m == b)
  {
    if a <= b then a else b
  }

  /** The rows `range(from, from + size - 1)` returns from `table`: at most
      `size` rows starting at `from`, none past the end. */
  function Window<T>(table: seq<T>, from: nat, size: nat): (rows: seq<T>)
    ensures from <= |table| ==> rows == table[from..Min(from + size, |table|)]
    ensures from >= |table| ==> rows == []
    ensures |rows| <= size
    ensures from + size <= |table| ==> |rows| == size
    ensures forall k :: 0 <= k < |rows| ==> from + k < |table| && rows[k] == table[from + k]
    ensures from < |table| && |rows| < size ==> from + |rows| == |table|
  {
    if from >= |table| then [] else table[from..Min(from + size, |table|)]
  }

  /** `table[key]`, `None` for a missing key. */
  function Lookup<V(==)>(table: seq<(string, V)>, key: string): (r: Option<V>)
    ensures r.None? <==> forall i :: 0 <= i < |table| ==> table[i].0 != key
    ensures r.Some? ==> (key, r.value) in table
  {
    if table == [] then None
    else if table[0].0 == key then Some(table[0].1)
    else Lookup(table[1..], key)
  }

  /** `v` is the value of the first entry of `table` whose key is `key`. */
  predicate FirstWith<V(==)>(table: seq<(string, V)>, key: string, v: V)
  {
    exists i :: 0 <= i < |table| && table[i] == (key, v) && forall j :: 0 <= j < i ==> table[j].0 != key
  }

  /** `Lookup` reads exactly the first entry with the key. */
  lemma {:induction false} LookupIsFirst<V>(table: seq<(string, V)>, key: string, v: V)
    ensures Lookup(table, key) == Some(v) <==> FirstWith(table, key, v)
  {
    if table != [] {
      if table[0].0 == key {
        if FirstWith(table, key, v) {
          var i :| 0 <= i < |table| && table[i] == (key, v) && forall j :: 0 <= j < i ==> table[j].0 != key;
          assert i == 0;
        }
        if Lookup(table, key) == Some(v) {
          assert table[0] == (key, v);
        }
      } else {
        LookupIsFirst(table[1..], key, v);
        if FirstWith(table, key, v) {
          var i :| 0 <= i < |table| && table[i] == (key, v) && forall j :: 0 <= j < i ==> table[j].0 != key;
          assert i > 0 && table[1..][i - 1] == (key, v);
          assert FirstWith(table[1..], key, v);
        }
        if FirstWith(table[1..], key, v) {
          var i :| 0 <= i < |table[1..]| && table[1..][i] == (key, v) && forall j :: 0 <= j < i ==> table[1..][j].0 != key;
          assert table[i + 1] == (key, v);
          assert forall j :: 0 <= j < i + 1 ==> table[j].0 != key by {
            forall j | 0 <= j < i + 1 ensures table[j].0 != key {
              if j > 0 {
                assert table[j] == table[1..][j - 1];
              }
            }
          }
        }
      }
    }
  }

  /** Looking up the key of an entry that no earlier entry shares finds
      that entry's value. */
  lemma {:induction false} LookupFinds<V>(table: seq<(string, V)>, i: nat)
    requires i < |table|
    requires forall j :: 0 <= j < i ==> table[j].0 != table[i].0
    ensures Lookup(table, table[i].0) == Some(table[i].1)
  {
    if i > 0 {
      assert table[0].0 != table[i].0;
      LookupFinds(table[1..], i - 1);
    }
  }
}

/** Small helpers shared by the page models: an optional value (the source's
    `T | null` state variables), duplicate-freedom of sequences, and the first
    entries of a shuffled table. */
module Common {

  /** A value that may be absent, as a `T | null` state variable of the source. */
  datatype Option<T> = None | Some(value: T)

  function Min(a: int, b: int): int
  {
    if a <= b then a else b
  }

  /** No element of `s` occurs twice. */
  ghost predicate Distinct<T>(s: seq<T>)
  {
    forall i, j :: 0 <= i < j < |s| ==> s[i] != s[j]
  }

  /** `order` lists each of `0 .. n - 1` exactly once: the order a shuffle puts
      an `n`-entry table in. */
  ghost predicate IsOrder(order: seq<nat>, n: nat)
  {
    |order| == n && Distinct(order) && forall i :: 0 <= i < n ==> order[i] < n
  }

  /** The first `k` entries of a duplicate-free table, in the order `order`. */
  function Pick<T>(table: seq<T>, order: seq<nat>, k: nat): (r: seq<T>)
    requires IsOrder(order, |table|) && k <= |table|
    ensures |r| == k
    ensures forall i :: 0 <= i < k ==> r[i] == table[order[i]]
    ensures Distinct(table) ==> Distinct(r)
    ensures forall x :: x in r ==> x in table
  {
    seq(k, i requires 0 <= i < k => table[order[i]])
  }
}

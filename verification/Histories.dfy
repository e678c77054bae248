// Client-observed histories and what it means for one to be linearizable: the definition
// that both the cluster theorem and the oracle are stated against.
module Histories {
  import opened Prelude
  import opened KvStore

  // One operation as its client saw it.
  datatype Row = Row(command: Command, invoked: nat, returned: Option<nat>, observed: string)

  predicate Completed(r: Row) {
    r.returned.Some?
  }

  // a returned before b was invoked.
  predicate Precedes(a: Row, b: Row) {
    a.returned.Some? && a.returned.value < b.invoked
  }

  ghost predicate Indices(rows: seq<Row>, order: seq<nat>) {
    forall k | 0 <= k < |order| :: order[k] < |rows|
  }

  ghost function Issued(rows: seq<Row>, order: seq<nat>): (r: seq<Command>)
    requires Indices(rows, order)
    ensures |r| == |order|
    ensures forall k | 0 <= k < |order| :: r[k] == rows[order[k]].command
  {
    seq(|order|, k requires 0 <= k < |order| => rows[order[k]].command)
  }

  // The plain sequential store before the k-th operation of the order.
  ghost function StoreAt(rows: seq<Row>, order: seq<nat>, k: nat): Store
    requires Indices(rows, order) && k <= |order|
  {
    RunAll(Issued(rows, order)[..k])
  }

  predicate Distinct<T(==)>(s: seq<T>) {
    forall i, j | 0 <= i < j < |s| :: s[i] != s[j]
  }

  // No operation is placed before one that had already returned when it was invoked.
  ghost predicate RealTime(rows: seq<Row>, order: seq<nat>)
    requires Indices(rows, order)
  {
    forall i, j | 0 <= i < j < |order| :: !Precedes(rows[order[j]], rows[order[i]])
  }

  // Every observed result is what the sequential store gives at that place.
  ghost predicate Legal(rows: seq<Row>, order: seq<nat>)
    requires Indices(rows, order)
  {
    forall k | 0 <= k < |order| ::
      rows[order[k]].observed == Execute(StoreAt(rows, order, k), rows[order[k]].command).1
  }

  // Exactly the completed rows, each once.
  ghost predicate Covers(rows: seq<Row>, order: seq<nat>)
    requires Indices(rows, order)
  {
    && Distinct(order)
    && (forall k | 0 <= k < |order| :: Completed(rows[order[k]]))
    && (forall i | 0 <= i < |rows| && Completed(rows[i]) :: i in order)
  }

  ghost predicate Linearization(rows: seq<Row>, order: seq<nat>) {
    Indices(rows, order) && Covers(rows, order) && RealTime(rows, order) && Legal(rows, order)
  }

  ghost predicate Linearizable(rows: seq<Row>) {
    exists order :: Linearization(rows, order)
  }
}

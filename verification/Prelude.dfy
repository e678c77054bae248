// Small vocabulary shared by every module: options, total slicing, and the one
// counting fact all of Raft rests on: two majorities meet.
module Prelude {

  datatype Option<+T> = None | Some(value: T)

  function Max(a: int, b: int): int {
    if a < b then b else a
  }

  function Min(a: int, b: int): int {
    if a < b then a else b
  }

  // The first k elements, or everything when there are fewer.
  function Take<T>(s: seq<T>, k: nat): seq<T> {
    if k <= |s| then s[..k] else s
  }

  function Drop<T>(s: seq<T>, k: nat): seq<T> {
    if k <= |s| then s[k..] else []
  }

  // Length of the longest common prefix.
  function Split<T(==)>(a: seq<T>, b: seq<T>): (r: nat)
    ensures r <= |a| && r <= |b|
    ensures a[..r] == b[..r]
    ensures r < |a| && r < |b| ==> a[r] != b[r]
  {
    if a == [] || b == [] || a[0] != b[0] then 0
    else
      var r := 1 + Split(a[1..], b[1..]);
      assert a[..r] == [a[0]] + a[1..][..r - 1];
      assert b[..r] == [b[0]] + b[1..][..r - 1];
      r
  }

  // q is a strict majority of c (only members of c count).
  predicate Majority<T>(q: set<T>, c: set<T>) {
    2 * |q * c| > |c|
  }

  // Equal, or one of them is the other with a single element added.
  predicate Near<T>(a: set<T>, b: set<T>) {
    a == b || OneApart(a, b)
  }

  predicate OneApart<T>(a: set<T>, b: set<T>) {
    |(a - b) + (b - a)| == 1
  }

  lemma CardinalityOfSubset<T>(a: set<T>, b: set<T>)
    requires a <= b
    ensures |a| <= |b|
  {
    assert b == a + (b - a);
  }

  lemma SplitCardinality<T>(a: set<T>, b: set<T>)
    ensures |a| == |a * b| + |a - b|
    ensures |a + b| == |a * b| + |a - b| + |b - a|
  {
    assert a == a * b + (a - b);
    assert a + b == a + (b - a);
  }

  // Majorities of two configurations that differ by at most one server intersect.
  lemma MajoritiesMeet<T>(q1: set<T>, c1: set<T>, q2: set<T>, c2: set<T>) returns (v: T)
    requires Majority(q1, c1) && Majority(q2, c2) && Near(c1, c2)
    ensures v in q1 && v in q2 && v in c1 && v in c2
  {
    var m1, m2 := q1 * c1, q2 * c2;
    if m1 * m2 == {} {
      SplitCardinality(c1, c2);
      SplitCardinality(c2, c1);
      assert c1 * c2 == c2 * c1;
      assert |c1 - c2| + |c2 - c1| <= 1 by {
        if c1 == c2 {
          assert c1 - c2 == {};
        } else {
          assert |(c1 - c2) + (c2 - c1)| == |c1 - c2| + |c2 - c1|;
        }
      }
      CardinalityOfSubset(m1 + m2, c1 + c2);
      assert false;
    }
    v :| v in m1 * m2;
  }
}

/** Row-level query primitives of the relational store, over a table held as the
    sequence of its rows in stored order: the first row passing a filter
    (`.filter(...).first()`), every row passing it (`.filter(...).all()`), an
    `OFFSET ... LIMIT ...` window, and the removal of one row. */
module Tables {
  import opened Wrappers

  function Min(a: int, b: int): int { if a <= b then a else b }

  /** Index of the first row satisfying `p`, or `None` when no row does. */
  function FirstIndex<T>(rows: seq<T>, p: T -> bool): (r: Option<nat>)
    ensures r.Some? ==> r.value < |rows| && p(rows[r.value])
    ensures r.Some? ==> forall j :: 0 <= j < r.value ==> !p(rows[j])
    ensures r.None? <==> forall j :: 0 <= j < |rows| ==> !p(rows[j])
    decreases |rows|
  {
    if |rows| == 0 then None
    else if p(rows[0]) then Some(0)
    else match FirstIndex(rows[1..], p)
      case None => None
      case Some(i) => Some(i + 1)
  }

  /** The contract of FirstIndex determines its result. */
  lemma FirstIndexIs<T>(rows: seq<T>, p: T -> bool, i: nat)
    requires i < |rows| && p(rows[i])
    requires forall j :: 0 <= j < i ==> !p(rows[j])
    ensures FirstIndex(rows, p) == Some(i)
  {
  }

  /** Two tables on which two filters agree row by row have their first match
      at the same position. */
  lemma FirstIndexCongruent<T, U>(rows: seq<T>, p: T -> bool, others: seq<U>, q: U -> bool)
    requires |rows| == |others|
    requires forall j :: 0 <= j < |rows| ==> p(rows[j]) == q(others[j])
    ensures FirstIndex(rows, p) == FirstIndex(others, q)
  {
    match FirstIndex(rows, p)
    case None =>
    case Some(i) => FirstIndexIs(others, q, i);
  }

  /** The rows satisfying `p`, in stored order. */
  function Filter<T(!new)>(rows: seq<T>, p: T -> bool): (r: seq<T>)
    ensures |r| <= |rows|
    ensures forall x :: multiset(r)[x] == if p(x) then multiset(rows)[x] else 0
    ensures forall x :: x in r <==> x in rows && p(x)
    decreases |rows|
  {
    if |rows| == 0 then []
    else
      var rest := Filter(rows[1..], p);
      assert rows == [rows[0]] + rows[1..];
      if p(rows[0]) then [rows[0]] + rest else rest
  }

  /** The window `OFFSET skip LIMIT limit`: at most `limit` rows, starting
      with the row at position `skip`, in stored order. */
  function Page<T>(rows: seq<T>, skip: nat, limit: nat): (r: seq<T>)
    ensures |r| == if skip >= |rows| then 0 else Min(limit, |rows| - skip)
    ensures forall k :: 0 <= k < |r| ==> r[k] == rows[skip + k]
  {
    if skip >= |rows| then [] else rows[skip .. skip + Min(limit, |rows| - skip)]
  }

  /** A window is empty exactly when it starts past the last row or has no room. */
  lemma PageEmptyIff<T>(rows: seq<T>, skip: nat, limit: nat)
    ensures Page(rows, skip, limit) == [] <==> skip >= |rows| || limit == 0
  {

  }

  /** Consecutive windows read the table without gap or overlap: the page of
      `a` rows at `skip` followed by the page of `b` rows at `skip + a` is the
      page of `a + b` rows at `skip`. */
  lemma PagesAdjoin<T>(rows: seq<T>, skip: nat, a: nat, b: nat)
    ensures Page(rows, skip, a) + Page(rows, skip + a, b) == Page(rows, skip, a + b)
  {

  }

  /** The table without its row at position `i`. */
  function Without<T>(rows: seq<T>, i: nat): (r: seq<T>)
    requires i < |rows|
    ensures |r| == |rows| - 1
    ensures forall j :: 0 <= j < i ==> r[j] == rows[j]
    ensures forall j :: i <= j < |r| ==> r[j] == rows[j + 1]
    ensures multiset(r) + multiset{rows[i]} == multiset(rows)
  {
    assert rows == rows[..i] + [rows[i]] + rows[i + 1..];
    rows[..i] + rows[i + 1..]
  }

  /** Every row left after a removal was a row of the table. */
  lemma WithoutSubset<T>(rows: seq<T>, i: nat, x: T)
    requires i < |rows|
    requires x in Without(rows, i)
    ensures x in rows
  {

  }
}

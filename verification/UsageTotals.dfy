/** Usage samples, and sums of the samples that a given placing puts into a given set of places. */
module UsageTotals {
  import opened Optional

  // One stored row: the usage of one interface over the minute, hour or day that starts at `at`.
  datatype UsagePoint = UsagePoint(
    at: int,
    resolution: int,
    account: string,
    interfaceId: string,
    usedMb: real,
    sampledSeconds: int,
    startedAt: Option<int>,
    endedAt: Option<int>)

  type Rows = seq<UsagePoint>

  ghost function Total<K>(rows: Rows, place: UsagePoint -> Option<K>, places: iset<K>): real {
    if rows == [] then 0.0 else
      var last := rows[|rows| - 1];
      Total(rows[..|rows| - 1], place, places)
      + if place(last).Some? && place(last).value in places then last.usedMb else 0.0
  }

  ghost predicate Reaches<K>(rows: Rows, place: UsagePoint -> Option<K>, places: iset<K>) {
    exists row :: row in rows && place(row).Some? && place(row).value in places
  }

  lemma {:induction false} TotalSplits<K>(rows: Rows, place: UsagePoint -> Option<K>, a: iset<K>, b: iset<K>)
    requires a !! b
    ensures Total(rows, place, a + b) == Total(rows, place, a) + Total(rows, place, b)
  {
    if rows != [] { TotalSplits(rows[..|rows| - 1], place, a, b); }
  }

  // Two placings that agree on which rows they put into the given places give the same sum.
  lemma {:induction false} TotalAgrees<K, L>(
      rows: Rows, p: UsagePoint -> Option<K>, a: iset<K>, q: UsagePoint -> Option<L>, b: iset<L>)
    requires forall row :: row in rows ==>
               (p(row).Some? && p(row).value in a <==> q(row).Some? && q(row).value in b)
    ensures Total(rows, p, a) == Total(rows, q, b)
    ensures Reaches(rows, p, a) <==> Reaches(rows, q, b)
  {
    if rows != [] { TotalAgrees(rows[..|rows| - 1], p, a, q, b); }
  }

  lemma {:induction false} TotalOfNone<K>(rows: Rows, place: UsagePoint -> Option<K>, places: iset<K>)
    requires !Reaches(rows, place, places)
    ensures Total(rows, place, places) == 0.0
  {
    if rows != [] { TotalOfNone(rows[..|rows| - 1], place, places); }
  }

  lemma {:induction false} TotalNonNegative<K>(rows: Rows, place: UsagePoint -> Option<K>, places: iset<K>)
    requires forall row :: row in rows ==> row.usedMb >= 0.0
    ensures Total(rows, place, places) >= 0.0
  {
    if rows != [] { TotalNonNegative(rows[..|rows| - 1], place, places); }
  }

  lemma TotalSnoc<K>(rows: Rows, row: UsagePoint, place: UsagePoint -> Option<K>, places: iset<K>)
    ensures Total(rows + [row], place, places) == Total(rows, place, places)
              + if place(row).Some? && place(row).value in places then row.usedMb else 0.0
    ensures Reaches(rows + [row], place, places)
            == (Reaches(rows, place, places) || (place(row).Some? && place(row).value in places))
  {
    assert (rows + [row])[..|rows|] == rows;
    if place(row).Some? && place(row).value in places { assert row in rows + [row]; }
    assert forall r :: r in rows ==> r in rows + [row];
  }
}

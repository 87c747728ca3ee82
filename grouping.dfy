/** `groupby(key)[amount].sum().sort_values(ascending=False)` over a column
    of (group value, amount) pairs (app.py:218-224). */
module Grouping {
  import opened Tables

  /** Amounts never increase from one report row to the next. */
  predicate NonIncreasing<K>(s: seq<(K, real)>)
  {
    forall i, j :: 0 <= i < j < |s| ==> s[i].1 >= s[j].1
  }

  /** Sum, over the keys of `report` in order, of what `pairs` files under
      each key. */
  function SumGroups<K(==)>(pairs: seq<(K, real)>, report: seq<(K, real)>): real
  {
    if report == [] then 0.0
    else SumGroups(pairs, report[..|report| - 1]) + SumOf(pairs, report[|report| - 1].0)
  }

  /** Where to insert amount `v` into a report sorted in non-increasing
      order: after every row of at least `v`, before every smaller one. */
  method InsertionPoint<K>(s: seq<(K, real)>, v: real) returns (p: nat)
    requires NonIncreasing(s)
    ensures p <= |s|
    ensures forall j :: 0 <= j < p ==> s[j].1 >= v
    ensures forall j :: p <= j < |s| ==> s[j].1 < v
  {
    p := 0;
    while p < |s| && s[p].1 >= v
      invariant p <= |s|
      invariant forall j :: 0 <= j < p ==> s[j].1 >= v
    {
      p := p + 1;
    }
  }

  /** The running sum per group value (app.py:220-221). */
  method Accumulate<K(==)>(pairs: seq<(K, real)>) returns (acc: map<K, real>)
    ensures forall k :: k in acc <==> KeyOccurs(pairs, k)
    ensures forall k :: k in acc ==> acc[k] == SumOf(pairs, k)
  {
    acc := map[];
    var i := 0;
    while i < |pairs|
      invariant 0 <= i <= |pairs|
      invariant forall k :: k in acc <==> KeyOccurs(pairs[..i], k)
      invariant forall k :: k in acc ==> acc[k] == SumOf(pairs[..i], k)
    {
      var k := pairs[i].0;
      if k !in acc {
        SumOfAbsent(pairs[..i], k);
      }
      var before := if k in acc then acc[k] else 0.0;
      assert pairs[..i + 1][..i] == pairs[..i];
      assert forall k' :: KeyOccurs(pairs[..i + 1], k') <==> KeyOccurs(pairs[..i], k') || k' == k;
      acc := acc[k := before + pairs[i].1];
      i := i + 1;
    }
    assert pairs[..|pairs|] == pairs;
  }

  /** One row per group, each inserted at its place so that the report is
      in non-increasing order of its sums (app.py:222-224). */
  method SortedReport<K(==)>(acc: map<K, real>) returns (report: seq<(K, real)>)
    ensures DistinctKeys(report) && NonIncreasing(report)
    ensures forall j :: 0 <= j < |report| ==> report[j].0 in acc && report[j].1 == acc[report[j].0]
    ensures forall k :: k in acc ==> KeyOccurs(report, k)
  {
    var remaining := acc.Keys;
    report := [];
    while remaining != {}
      invariant remaining <= acc.Keys
      invariant DistinctKeys(report) && NonIncreasing(report)
      invariant forall j :: 0 <= j < |report| ==> report[j].0 in acc && report[j].0 !in remaining && report[j].1 == acc[report[j].0]
      invariant forall k :: k in acc && k !in remaining ==> KeyOccurs(report, k)
      decreases remaining
    {
      var k :| k in remaining;
      var p := InsertionPoint(report, acc[k]);
      var before := report;
      report := before[..p] + [(k, acc[k])] + before[p..];
      InsertSorted(before, p, (k, acc[k]), report);
      remaining := remaining - {k};
    }
  }

  /** Inserting a new key at the place InsertionPoint finds keeps the report
      sorted and its keys distinct, and adds exactly that row. */
  lemma InsertSorted<K>(s: seq<(K, real)>, p: nat, x: (K, real), r: seq<(K, real)>)
    requires NonIncreasing(s) && DistinctKeys(s) && !KeyOccurs(s, x.0)
    requires p <= |s| && r == s[..p] + [x] + s[p..]
    requires forall j :: 0 <= j < p ==> s[j].1 >= x.1
    requires forall j :: p <= j < |s| ==> s[j].1 < x.1
    ensures NonIncreasing(r) && DistinctKeys(r)
    ensures forall j :: 0 <= j < |r| ==> r[j] == x || r[j] in s
    ensures forall k :: KeyOccurs(r, k) <==> KeyOccurs(s, k) || k == x.0
  {
    assert forall j :: 0 <= j < p ==> r[j] == s[j];
    assert forall j :: p < j < |r| ==> r[j] == s[j - 1];
    assert r[p] == x;
    forall k | KeyOccurs(s, k) ensures KeyOccurs(r, k) {
      var j :| 0 <= j < |s| && s[j].0 == k;
      assert r[if j < p then j else j + 1].0 == k;
    }
  }

  /** `groupby(key)[amount].sum()` followed by a descending sort: one row
      per distinct key holding that key's sum, in non-increasing order, with
      nothing lost or counted twice (app.py:218-224). */
  method GroupSumSorted<K(==)>(pairs: seq<(K, real)>) returns (report: seq<(K, real)>)
    ensures DistinctKeys(report)
    ensures forall k :: KeyOccurs(report, k) <==> KeyOccurs(pairs, k)
    ensures forall j :: 0 <= j < |report| ==> report[j].1 == SumOf(pairs, report[j].0)
    ensures NonIncreasing(report)
    ensures SumValues(report) == SumValues(pairs)
  {
    var acc := Accumulate(pairs);
    report := SortedReport(acc);
    forall i | 0 <= i < |pairs| ensures KeyOccurs(report, pairs[i].0) {
      assert KeyOccurs(pairs, pairs[i].0);
    }
    GroupsPartitionTotal(pairs, report);
  }

  lemma {:induction false} SumGroupsEmpty<K>(report: seq<(K, real)>)
    ensures SumGroups([], report) == 0.0
  {
    if report != [] {
      SumGroupsEmpty(report[..|report| - 1]);
    }
  }

  /** One more pair adds its amount to exactly the group of its key. */
  lemma {:induction false} SumGroupsStep<K>(pairs: seq<(K, real)>, x: (K, real), report: seq<(K, real)>)
    requires DistinctKeys(report)
    ensures SumGroups(pairs + [x], report) == SumGroups(pairs, report) + (if KeyOccurs(report, x.0) then x.1 else 0.0)
  {
    if report != [] {
      var init := report[..|report| - 1];
      var last := report[|report| - 1];
      assert DistinctKeys(init);
      SumGroupsStep(pairs, x, init);
      assert (pairs + [x])[..|pairs + [x]| - 1] == pairs;
      assert KeyOccurs(report, x.0) <==> KeyOccurs(init, x.0) || last.0 == x.0 by {
        if KeyOccurs(report, x.0) && last.0 != x.0 {
          var j :| 0 <= j < |report| && report[j].0 == x.0;
          assert init[j].0 == x.0;
        }
        if KeyOccurs(init, x.0) {
          var j :| 0 <= j < |init| && init[j].0 == x.0;
          assert report[j].0 == x.0;
        }
      }
      assert KeyOccurs(init, x.0) ==> last.0 != x.0;
    }
  }

  /** Summing the groups of a report that names every key once gives the
      sum of all pairs. */
  lemma {:induction false} SumGroupsCover<K>(pairs: seq<(K, real)>, report: seq<(K, real)>)
    requires DistinctKeys(report)
    requires forall i :: 0 <= i < |pairs| ==> KeyOccurs(report, pairs[i].0)
    ensures SumGroups(pairs, report) == SumValues(pairs)
  {
    if pairs == [] {
      SumGroupsEmpty(report);
    } else {
      var init := pairs[..|pairs| - 1];
      var x := pairs[|pairs| - 1];
      assert pairs == init + [x];
      assert forall i :: 0 <= i < |init| ==> init[i] == pairs[i];
      SumGroupsCover(init, report);
      SumGroupsStep(init, x, report);
    }
  }

  /** A report whose every row holds its group's sum adds up to SumGroups. */
  lemma {:induction false} ReportIsSumGroups<K>(pairs: seq<(K, real)>, report: seq<(K, real)>)
    requires forall j :: 0 <= j < |report| ==> report[j].1 == SumOf(pairs, report[j].0)
    ensures SumValues(report) == SumGroups(pairs, report)
  {
    if report != [] {
      ReportIsSumGroups(pairs, report[..|report| - 1]);
    }
  }

  /** Grouping neither loses nor duplicates an amount: the report's grand
      sum is the sum of all pairs. */
  lemma GroupsPartitionTotal<K>(pairs: seq<(K, real)>, report: seq<(K, real)>)
    requires DistinctKeys(report)
    requires forall i :: 0 <= i < |pairs| ==> KeyOccurs(report, pairs[i].0)
    requires forall j :: 0 <= j < |report| ==> report[j].1 == SumOf(pairs, report[j].0)
    ensures SumValues(report) == SumValues(pairs)
  {
    ReportIsSumGroups(pairs, report);
    SumGroupsCover(pairs, report);
  }
}

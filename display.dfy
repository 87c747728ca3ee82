/** The two guards of the single-profile view: the cost multiplier
    (app.py:181) and the line-item table (app.py:185-186). */
module Display {
  import opened Tables
  import opened CostEngine

  /** The monthly total per unit of salary, reported as 0 when the salary
      is 0 instead of dividing by zero (app.py:181). */
  function Multiplier(monthly: real, salary: real): (m: real)
    ensures salary == 0.0 ==> m == 0.0
    ensures salary != 0.0 ==> m * salary == monthly
  {
    if salary != 0.0 then monthly / salary else 0.0
  }

  /** A ledger line appears in the table when its value is positive and its
      label does not contain "Total" (app.py:186). */
  predicate Shown(e: (string, real))
  {
    e.1 > 0.0 && !Contains(e.0, "Total")
  }

  /** The ledger filtered for display, keeping the ledger's order. */
  function DetailView(l: Ledger): (v: Ledger)
    ensures forall e :: e in v <==> e in l && Shown(e)
    ensures |v| <= |l|
  {
    if l == [] then []
    else
      var rest := DetailView(l[1..]);
      assert forall e :: e in l <==> e == l[0] || e in l[1..];
      if Shown(l[0]) then [l[0]] + rest else rest
  }

  /** Neither total reaches the table: both labels contain "Total". */
  lemma TotalsNotShown(p: Profile)
    ensures forall e :: e in DetailView(Compute(p)) ==> e.0 != MonthlyLabel && e.0 != AnnualLabel
  {
    assert StartsAt(MonthlyLabel, "Total", 6);
    assert StartsAt(AnnualLabel, "Total", 6);
  }

  /** Filtering keeps the ledger's order: the view of two ledgers one after
      the other is the view of the first followed by the view of the second. */
  lemma {:induction false} DetailViewAppend(a: Ledger, b: Ledger)
    ensures DetailView(a + b) == DetailView(a) + DetailView(b)
  {
    if a != [] {
      assert (a + b)[0] == a[0];
      assert (a + b)[1..] == a[1..] + b;
      DetailViewAppend(a[1..], b);
    } else {
      assert a + b == b;
    }
  }
}

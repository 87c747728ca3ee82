/** Properties of the employer-cost engine, stated over all profiles. */
module CostProperties {
  import opened Tables
  import opened CostEngine
  import opened Display

  /** The substring test on the selector labels takes the two CLT regimes
      to the CLT branch and PJ to the other; only the Presumido/Real label
      brings the employer charges (app.py:42, 62, 106, 123-126). */
  lemma RegimeBranches(r: Regime)
    ensures IsCLT(r) <==> r != PJ
    ensures PaysEmployerCharges(r) <==> r == CLTPresumidoReal
  {
    if r != PJ {
      assert StartsAt(RegimeLabel(r), "CLT", 0);
    }
  }

  /** No item label starts with 'C', the initial of both total labels. */
  predicate ClearOfTotals(l: Ledger)
  {
    forall i :: 0 <= i < |l| ==> |l[i].0| > 0 && l[i].0[0] != 'C'
  }

  lemma ItemsDistinctClt(p: Profile)
    requires IsCLT(p.regime)
    ensures DistinctKeys(Items(p))
  {
    var l := Items(p);
    assert RatLabel(p.ratText)[0] == 'R';
    assert ThirdPartyLabel(p.thirdPartyText)[0] == 'T';
    forall i, j | 0 <= i < j < |l| ensures l[i].0 != l[j].0 {
      assert |l[i].0| != |l[j].0| || l[i].0[0] != l[j].0[0];
    }
  }

  lemma ItemsDistinctPj(p: Profile)
    requires !IsCLT(p.regime)
    ensures DistinctKeys(Items(p))
  {
    var l := Items(p);
    forall i, j | 0 <= i < j < |l| ensures l[i].0 != l[j].0 {
      assert |l[i].0| != |l[j].0| || l[i].0[0] != l[j].0[0];
    }
  }

  lemma ItemsClearOfTotals(p: Profile)
    ensures ClearOfTotals(Items(p))
  {
    var l := Items(p);
    assert RatLabel(p.ratText)[0] == 'R';
    assert ThirdPartyLabel(p.thirdPartyText)[0] == 'T';
    if IsCLT(p.regime) {
      forall i | 0 <= i < |l| ensures |l[i].0| > 0 && l[i].0[0] != 'C' { }
    } else {
      forall i | 0 <= i < |l| ensures |l[i].0| > 0 && l[i].0[0] != 'C' { }
    }
  }

  /** No two labels of a computed ledger coincide, so the ordered sequence
      is a faithful picture of the program's dictionary (app.py:70-112). */
  lemma LabelsDistinct(p: Profile)
    ensures DistinctKeys(Compute(p))
  {
    var l := Compute(p);
    var items := Items(p);
    if IsCLT(p.regime) { ItemsDistinctClt(p); } else { ItemsDistinctPj(p); }
    ItemsClearOfTotals(p);
    forall i, j | 0 <= i < j < |l| ensures l[i].0 != l[j].0 {
      if j < |items| {
        assert l[i] == items[i] && l[j] == items[j];
      } else if i < |items| {
        assert l[i] == items[i] && l[i].0[0] != 'C';
        assert l[j].0[0] == 'C';
      }
    }
  }

  /** The annual total is exactly twelve times the monthly total, and both
      can be read back by label (app.py:111-112). */
  lemma AnnualIsTwelveMonthly(p: Profile)
    ensures Lookup(Compute(p), MonthlyLabel) == Some(MonthlyTotal(p))
    ensures Lookup(Compute(p), AnnualLabel) == Some(12.0 * MonthlyTotal(p))
  {
    var l := Compute(p);
    LabelsDistinct(p);
    LookupDistinct(l, |l| - 2);
    LookupDistinct(l, |l| - 1);
  }

  /** The value the ledger holds under "Custo Total Anual". */
  function ReportedAnnual(p: Profile): real
  {
    AnnualIsTwelveMonthly(p);
    Lookup(Compute(p), AnnualLabel).value
  }

  lemma ReportedAnnualIsTwelveMonthly(p: Profile)
    ensures ReportedAnnual(p) == 12.0 * MonthlyTotal(p)
  {
    AnnualIsTwelveMonthly(p);
  }

  /** Under CLT the monthly total is the sum of every line except the base
      salary, i.e. the employer's additional cost (app.py:103-107). */
  lemma CltMonthlyTotal(p: Profile)
    requires IsCLT(p.regime)
    ensures MonthlyTotal(p) == SumExcept(Items(p), SalaryLabel)
    ensures MonthlyTotal(p) == CltAdditionalCost(p)
  {
    ItemsDistinctClt(p);
    SumSplits(Items(p), SalaryLabel);
    SumOfDistinct(Items(p), 0);
  }

  /** Under PJ nothing is subtracted: the invoice value stays in the
      monthly total next to every benefit (app.py:91-101, 108-109). */
  lemma PjMonthlyTotal(p: Profile)
    requires p.regime == PJ
    ensures SumOf(Items(p), InvoiceLabel) == p.salary
    ensures MonthlyTotal(p) == SumValues(Items(p)) == PjCost(p)
  {
    RegimeBranches(p.regime);
    ItemsDistinctPj(p);
    SumOfDistinct(Items(p), 0);
  }

  /** With the form's non-negative inputs every amount of the ledger,
      totals included, is non-negative (app.py:39-112). */
  lemma LedgerNonNegative(p: Profile)
    requires NonNegativeInputs(p)
    ensures forall i :: 0 <= i < |Compute(p)| ==> Compute(p)[i].1 >= 0.0
  {
    assert TransitGross(p) >= 0.0 by {
      assert p.passesPerDay as real * p.passPrice >= 0.0;
    }
    if IsCLT(p.regime) {
      CltMonthlyTotal(p);
    } else {
      assert MonthlyTotal(p) == SumValues(Items(p));
    }
  }

  /** Salary above the ceiling adds nothing to the employer charges: they
      are the same as for a salary exactly at the ceiling (app.py:36, 64-68). */
  lemma ChargesCappedAtCeiling(p: Profile, raise: real)
    requires p.salary >= InssCeiling && raise >= 0.0
    ensures EmployerInss(p.(salary := p.salary + raise)) == EmployerInss(p)
    ensures Rat(p.(salary := p.salary + raise)) == Rat(p)
    ensures ThirdParty(p.(salary := p.salary + raise)) == ThirdParty(p)
  {
  }

  /** FGTS and its severance provision do not depend on whether the 13th
      and vacation provisions are accrued (app.py:44-49). */
  lemma FgtsIgnoresProvisionFlag(p: Profile, accrue: bool)
    ensures Fgts(p.(accrueProvisions := accrue)) == Fgts(p)
    ensures FgtsPenalty(p.(accrueProvisions := accrue)) == FgtsPenalty(p)
  {
  }

  /** The form's default profile (app.py:122-153, 130-131) at a salary of
      3000 under CLT Simples Nacional. */
  function DefaultProfile(): Profile
  {
    Profile(3000.0, CLTSimples, true, 2, 5.50, 550.0, 250.0,
            0.0, 0.0, 0.0, 0.0, 0.0, 0.0, 2.0, 5.8, "2.0", "5.8")
  }

  /** Worked case: transit 242 less a 180 discount leaves 62; the monthly
      additional cost is 250 + 1000/3 + 240 + 96 + 62 + 550 + 250, a
      multiplier of 5344/9000 of the salary. */
  lemma DefaultProfileCosts()
    ensures Transit(DefaultProfile()) == 62.0
    ensures MonthlyTotal(DefaultProfile()) == 5344.0 / 3.0
    ensures Lookup(Compute(DefaultProfile()), AnnualLabel) == Some(21376.0)
    ensures Multiplier(MonthlyTotal(DefaultProfile()), DefaultProfile().salary) == 5344.0 / 9000.0
  {
    var p := DefaultProfile();
    RegimeBranches(p.regime);
    assert !PaysEmployerCharges(p.regime);
    assert ThirteenthProvision(p) == 250.0;
    assert VacationProvision(p) == 1000.0 / 3.0;
    assert Fgts(p) == 240.0 && FgtsPenalty(p) == 96.0;
    assert TransitGross(p) == 242.0;
    assert Transit(p) == 62.0;
    assert CltAdditionalCost(p) == 5344.0 / 3.0;
    CltMonthlyTotal(p);
    AnnualIsTwelveMonthly(p);
  }
}

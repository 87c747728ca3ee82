/** The employer-cost engine `calcular_custos` (app.py:39-114): one
    compensation profile becomes an ordered ledger of labelled monthly
    amounts, followed by the monthly and the annual total. */
module CostEngine {
  import opened Tables

  /** A ledger: (label, monthly amount) in insertion order. */
  type Ledger = seq<(string, real)>

  // ---------------- Regimes ----------------

  datatype Regime = CLTSimples | CLTPresumidoReal | PJ

  /** The text the regime selector offers for each regime (app.py:123-126). */
  function RegimeLabel(r: Regime): string
  {
    match r
    case CLTSimples => "CLT (Simples Nacional)"
    case CLTPresumidoReal => "CLT (Lucro Presumido/Real)"
    case PJ => "PJ"
  }

  /** `s` contains `t` starting at position `i`. */
  predicate StartsAt(s: string, t: string, i: nat)
  {
    i + |t| <= |s| && s[i..i + |t|] == t
  }

  /** Python's substring test `t in s`. */
  predicate Contains(s: string, t: string)
  {
    exists i: nat | i <= |s| :: StartsAt(s, t, i)
  }

  /** The employment branch is chosen by the substring test `"CLT" in regime`. */
  predicate IsCLT(r: Regime)
  {
    Contains(RegimeLabel(r), "CLT")
  }

  /** Employer social-security charges apply only on exact equality with
      the Presumido/Real label. */
  predicate PaysEmployerCharges(r: Regime)
  {
    RegimeLabel(r) == "CLT (Lucro Presumido/Real)"
  }

  // ---------------- Constants ----------------

  /** TETO_INSS_2025, the contribution ceiling (app.py:36). */
  const InssCeiling: real := 8157.41
  const WorkingDaysPerMonth: real := 22.0
  const FgtsRate: real := 0.08
  const FgtsPenaltyRate: real := 0.40
  const TransitDiscountRate: real := 0.06
  const EmployerInssRate: real := 0.20

  // ---------------- Profile ----------------

  /** The arguments of `calcular_custos`. `ratText` and `thirdPartyText`
      are the decimal renderings of the two percentages that the program
      embeds in two labels (app.py:77-78). */
  datatype Profile = Profile(
    salary: real,
    regime: Regime,
    accrueProvisions: bool,
    passesPerDay: int,
    passPrice: real,
    meal: real,
    food: real,
    health: real,
    dental: real,
    lifeInsurance: real,
    homeOffice: real,
    equipment: real,
    otherCosts: real,
    ratPercent: real,
    thirdPartyPercent: real,
    ratText: string,
    thirdPartyText: string)

  /** The bounds the input form imposes (app.py:122-153): nothing negative. */
  predicate NonNegativeInputs(p: Profile)
  {
    && p.salary >= 0.0 && p.passesPerDay >= 0 && p.passPrice >= 0.0
    && p.meal >= 0.0 && p.food >= 0.0 && p.health >= 0.0 && p.dental >= 0.0
    && p.lifeInsurance >= 0.0 && p.homeOffice >= 0.0 && p.equipment >= 0.0
    && p.otherCosts >= 0.0 && p.ratPercent >= 0.0 && p.thirdPartyPercent >= 0.0
  }

  function Min(a: real, b: real): real { if a <= b then a else b }
  function Max(a: real, b: real): real { if a >= b then a else b }

  // ---------------- Line items of the CLT branch ----------------

  /** Monthly accrual for the 13th salary (app.py:44). */
  function ThirteenthProvision(p: Profile): (r: real)
    ensures 12.0 * r == (if p.accrueProvisions then p.salary else 0.0)
  {
    if p.accrueProvisions then p.salary / 12.0 else 0.0
  }

  /** Monthly accrual for vacation pay plus its one-third bonus (app.py:45). */
  function VacationProvision(p: Profile): (r: real)
    ensures 12.0 * r == (if p.accrueProvisions then p.salary + p.salary / 3.0 else 0.0)
    ensures 3.0 * r == 4.0 * ThirteenthProvision(p)
  {
    if p.accrueProvisions then p.salary / 12.0 + p.salary / 3.0 / 12.0 else 0.0
  }

  /** FGTS deposit, on the raw salary (app.py:48). */
  function Fgts(p: Profile): (r: real)
    ensures p.salary >= 0.0 ==> 0.0 <= r <= p.salary
  {
    p.salary * FgtsRate
  }

  /** Provision for the 40% FGTS severance penalty (app.py:49). */
  function FgtsPenalty(p: Profile): (r: real)
    ensures r == FgtsPenaltyRate * FgtsRate * p.salary
  {
    Fgts(p) * FgtsPenaltyRate
  }

  /** Gross monthly transit cost: passes per day times price times 22 days
      (app.py:52). */
  function TransitGross(p: Profile): (g: real)
    ensures p.passesPerDay >= 0 && p.passPrice >= 0.0 ==> g >= 0.0
  {
    assert p.passesPerDay >= 0 && p.passPrice >= 0.0 ==> p.passesPerDay as real * p.passPrice >= 0.0;
    (p.passesPerDay as real * p.passPrice) * WorkingDaysPerMonth
  }

  /** Employer part of the transit benefit: the gross cost less the
      employee's discount, the discount capped at 6% of salary and at the
      gross cost itself (app.py:53-55). */
  function Transit(p: Profile): (vt: real)
    ensures vt == Max(0.0, TransitGross(p) - TransitDiscountRate * p.salary)
    ensures TransitGross(p) >= 0.0 && p.salary >= 0.0 ==> 0.0 <= vt <= TransitGross(p)
  {
    var gross := TransitGross(p);
    var discount := Min(gross, p.salary * TransitDiscountRate);
    Max(0.0, gross - discount)
  }

  /** Contribution base: the salary capped at the ceiling (app.py:64). */
  function InssBase(p: Profile): (b: real)
    ensures b <= InssCeiling && b <= p.salary
    ensures b == p.salary || b == InssCeiling
  {
    Min(p.salary, InssCeiling)
  }

  /** 20% employer INSS, Presumido/Real only (app.py:58, 62-66). */
  function EmployerInss(p: Profile): (r: real)
    ensures !PaysEmployerCharges(p.regime) ==> r == 0.0
    ensures p.salary >= 0.0 ==> 0.0 <= r <= InssCeiling * EmployerInssRate
  {
    if PaysEmployerCharges(p.regime) then InssBase(p) * EmployerInssRate else 0.0
  }

  /** Occupational-risk charge at `ratPercent`%, Presumido/Real only
      (app.py:59, 62-67). */
  function Rat(p: Profile): (r: real)
    ensures !PaysEmployerCharges(p.regime) ==> r == 0.0
    ensures p.salary >= 0.0 && p.ratPercent >= 0.0 ==> 0.0 <= r <= InssCeiling * (p.ratPercent / 100.0)
  {
    if PaysEmployerCharges(p.regime) then
      InssBase(p) * (p.ratPercent / 100.0)
    else 0.0
  }

  /** Third-party ("Sistema S") charge at `thirdPartyPercent`%,
      Presumido/Real only (app.py:60, 62-68). */
  function ThirdParty(p: Profile): (r: real)
    ensures !PaysEmployerCharges(p.regime) ==> r == 0.0
    ensures p.salary >= 0.0 && p.thirdPartyPercent >= 0.0 ==> 0.0 <= r <= InssCeiling * (p.thirdPartyPercent / 100.0)
  {
    if PaysEmployerCharges(p.regime) then
      InssBase(p) * (p.thirdPartyPercent / 100.0)
    else 0.0
  }

  // ---------------- Labels ----------------

  const SalaryLabel := "Salário Base"
  const InvoiceLabel := "Valor Nota Fiscal (PJ)"
  const MonthlyLabel := "Custo Total Mensal"
  const AnnualLabel := "Custo Total Anual"

  function RatLabel(text: string): string { "RAT (" + text + "%)" }
  function ThirdPartyLabel(text: string): string { "Terceiros/Sistema S (" + text + "%)" }

  // ---------------- The ledger ----------------

  /** The dictionary literal of the CLT branch (app.py:70-88) or of the PJ
      branch (app.py:91-101), in insertion order. Under CLT the lines add up
      to the salary plus the employer's additional cost, under PJ to the
      invoice plus every benefit. */
  function Items(p: Profile): (l: Ledger)
    ensures |l| == (if IsCLT(p.regime) then 17 else 9)
    ensures IsCLT(p.regime) ==> SumValues(l) == p.salary + CltAdditionalCost(p)
    ensures !IsCLT(p.regime) ==> SumValues(l) == PjCost(p)
  {
    if IsCLT(p.regime) then
      var l :=
      [ (SalaryLabel, p.salary),
        ("13º Salário (Provisão Mensal)", ThirteenthProvision(p)),
        ("Férias + 1/3 (Provisão Mensal)", VacationProvision(p)),
        ("FGTS Mensal (8%)", Fgts(p)),
        ("Provisão Multa FGTS (40%)", FgtsPenalty(p)),
        ("INSS Patronal (20%)", EmployerInss(p)),
        (RatLabel(p.ratText), Rat(p)),
        (ThirdPartyLabel(p.thirdPartyText), ThirdParty(p)),
        ("Vale Transporte (Custo Empresa)", Transit(p)),
        ("Vale Refeição", p.meal),
        ("Vale Alimentação", p.food),
        ("Plano de Saúde", p.health),
        ("Plano Odontológico", p.dental),
        ("Seguro de Vida", p.lifeInsurance),
        ("Auxílio Home Office", p.homeOffice),
        ("Equipamentos/EPI", p.equipment),
        ("Outros Custos", p.otherCosts) ];
      SumOf17(l);
      l
    else
      var l :=
      [ (InvoiceLabel, p.salary),
        ("Vale Refeição", p.meal),
        ("Vale Alimentação", p.food),
        ("Plano de Saúde", p.health),
        ("Plano Odontológico", p.dental),
        ("Seguro de Vida", p.lifeInsurance),
        ("Auxílio Home Office", p.homeOffice),
        ("Equipamentos", p.equipment),
        ("Outros Custos", p.otherCosts) ];
      SumOf9(l);
      l
  }

  /** The monthly total: the sum of the ledger, less the base salary under
      CLT (app.py:103-109): the employer's additional cost under CLT, the
      whole engagement under PJ. */
  function MonthlyTotal(p: Profile): (t: real)
    ensures IsCLT(p.regime) ==> t == CltAdditionalCost(p)
    ensures !IsCLT(p.regime) ==> t == PjCost(p)
  {
    var total := SumValues(Items(p));
    if IsCLT(p.regime) then total - p.salary else total
  }

  /** `calcular_custos`: the line items, then the monthly and the annual
      total (app.py:111-114). */
  function Compute(p: Profile): (l: Ledger)
    ensures |l| >= 2 && l[|l| - 2].0 == MonthlyLabel && l[|l| - 1].0 == AnnualLabel
    ensures l[|l| - 1].1 == 12.0 * l[|l| - 2].1
  {
    Items(p) + [(MonthlyLabel, MonthlyTotal(p)), (AnnualLabel, MonthlyTotal(p) * 12.0)]
  }

  // ---------------- Reference definitions ----------------

  /** What the employer pays on top of the salary under CLT: every line from
      the provisions to the last benefit (app.py:72-87). */
  function CltAdditionalCost(p: Profile): real
  {
    ThirteenthProvision(p) + VacationProvision(p) + Fgts(p) + FgtsPenalty(p)
    + EmployerInss(p) + Rat(p) + ThirdParty(p) + Transit(p)
    + p.meal + p.food + p.health + p.dental + p.lifeInsurance
    + p.homeOffice + p.equipment + p.otherCosts
  }

  /** What a PJ engagement costs: the invoice plus every benefit
      (app.py:92-100). */
  function PjCost(p: Profile): real
  {
    p.salary + p.meal + p.food + p.health + p.dental + p.lifeInsurance
    + p.homeOffice + p.equipment + p.otherCosts
  }
}

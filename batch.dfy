/** The spreadsheet path: every row's salary goes through the cost engine
    with all other settings shared (app.py:204-214), and the annual totals
    are consolidated by a chosen column (app.py:218-224). */
module Batch {
  import opened Tables
  import opened CostEngine
  import opened CostProperties
  import opened Grouping

  /** A spreadsheet cell: a number or a text. */
  datatype Cell = Num(n: real) | Text(s: string)

  /** A spreadsheet row: column name to cell. */
  type Row = map<string, Cell>

  /** A row of the detail table: the input row beside its cost ledger
      (app.py:214). */
  datatype DetailRow = DetailRow(input: Row, costs: Ledger)

  /** Every row holds a number in the salary column. */
  predicate SalariesPresent(rows: seq<Row>, salaryColumn: string)
  {
    forall i :: 0 <= i < |rows| ==> salaryColumn in rows[i] && rows[i][salaryColumn].Num?
  }

  /** Every row has a value in the grouping column. */
  predicate GroupsPresent(rows: seq<Row>, groupColumn: string)
  {
    forall i :: 0 <= i < |rows| ==> groupColumn in rows[i]
  }

  /** The shared settings with the row's salary substituted (app.py:205-210). */
  function RowProfile(template: Profile, row: Row, salaryColumn: string): Profile
    requires salaryColumn in row && row[salaryColumn].Num?
  {
    template.(salary := row[salaryColumn].n)
  }

  /** The detail table: each input row beside the ledger of its salary, in
      input order (app.py:204-214). */
  method BuildDetail(rows: seq<Row>, salaryColumn: string, template: Profile) returns (detail: seq<DetailRow>)
    requires SalariesPresent(rows, salaryColumn)
    ensures |detail| == |rows|
    ensures forall i :: 0 <= i < |rows| ==>
      detail[i].input == rows[i] && detail[i].costs == Compute(RowProfile(template, rows[i], salaryColumn))
  {
    detail := [];
    var i := 0;
    while i < |rows|
      invariant 0 <= i <= |rows| && |detail| == i
      invariant forall j :: 0 <= j < i ==>
        detail[j].input == rows[j] && detail[j].costs == Compute(RowProfile(template, rows[j], salaryColumn))
    {
      detail := detail + [DetailRow(rows[i], Compute(RowProfile(template, rows[i], salaryColumn)))];
      i := i + 1;
    }
  }

  /** Every detail row has the grouping column and an annual total. */
  predicate Consolidatable(detail: seq<DetailRow>, groupColumn: string)
  {
    forall i :: 0 <= i < |detail| ==>
      groupColumn in detail[i].input && KeyOccurs(detail[i].costs, AnnualLabel)
  }

  /** The (group value, "Custo Total Anual") column pair that the report
      groups (app.py:219-220). */
  function AnnualByGroup(detail: seq<DetailRow>, groupColumn: string): (pairs: seq<(Cell, real)>)
    requires Consolidatable(detail, groupColumn)
    ensures |pairs| == |detail|
    ensures forall i :: 0 <= i < |detail| ==>
      pairs[i].0 == detail[i].input[groupColumn] && Lookup(detail[i].costs, AnnualLabel) == Some(pairs[i].1)
  {
    seq(|detail|, i requires 0 <= i < |detail| =>
      (detail[i].input[groupColumn], Lookup(detail[i].costs, AnnualLabel).value))
  }

  /** The annual total the engine reports for a row's salary: twelve times
      that salary's monthly total. */
  function RowAnnual(template: Profile, row: Row, salaryColumn: string): (r: real)
    requires salaryColumn in row && row[salaryColumn].Num?
    ensures r == 12.0 * MonthlyTotal(RowProfile(template, row, salaryColumn))
  {
    ReportedAnnualIsTwelveMonthly(RowProfile(template, row, salaryColumn));
    ReportedAnnual(RowProfile(template, row, salaryColumn))
  }

  /** The annual cost of every row, filed under its group value: the
      reference the consolidated report is measured against. */
  function RowAnnuals(rows: seq<Row>, salaryColumn: string, groupColumn: string, template: Profile): seq<(Cell, real)>
    requires SalariesPresent(rows, salaryColumn) && GroupsPresent(rows, groupColumn)
  {
    seq(|rows|, i requires 0 <= i < |rows| =>
      (rows[i][groupColumn], RowAnnual(template, rows[i], salaryColumn)))
  }

  /** Reading "Custo Total Anual" back from the detail table gives each
      row's annual cost as the engine defines it (app.py:112, 214, 220). */
  lemma AnnualColumnMatches(rows: seq<Row>, salaryColumn: string, groupColumn: string, template: Profile,
                            detail: seq<DetailRow>)
    requires SalariesPresent(rows, salaryColumn) && GroupsPresent(rows, groupColumn)
    requires |detail| == |rows|
    requires forall i :: 0 <= i < |rows| ==>
      detail[i].input == rows[i] && detail[i].costs == Compute(RowProfile(template, rows[i], salaryColumn))
    ensures Consolidatable(detail, groupColumn)
    ensures AnnualByGroup(detail, groupColumn) == RowAnnuals(rows, salaryColumn, groupColumn, template)
  {
    forall i | 0 <= i < |detail|
      ensures Lookup(detail[i].costs, AnnualLabel) == Some(RowAnnual(template, rows[i], salaryColumn))
    {
      var q := RowProfile(template, rows[i], salaryColumn);
      assert detail[i].costs == Compute(q);
      AnnualIsTwelveMonthly(q);
    }
    assert Consolidatable(detail, groupColumn);
    var got := AnnualByGroup(detail, groupColumn);
    var want := RowAnnuals(rows, salaryColumn, groupColumn, template);
    forall i | 0 <= i < |rows| ensures got[i] == want[i] {
      assert Lookup(detail[i].costs, AnnualLabel) == Some(got[i].1);
    }
  }

  /** The group values of RowAnnuals are exactly those of the rows. */
  lemma RowAnnualsKeys(rows: seq<Row>, salaryColumn: string, groupColumn: string, template: Profile)
    requires SalariesPresent(rows, salaryColumn) && GroupsPresent(rows, groupColumn)
    ensures forall k :: KeyOccurs(RowAnnuals(rows, salaryColumn, groupColumn, template), k) <==>
      exists i :: 0 <= i < |rows| && rows[i][groupColumn] == k
  {
    var pairs := RowAnnuals(rows, salaryColumn, groupColumn, template);
    forall k | exists i :: 0 <= i < |rows| && rows[i][groupColumn] == k ensures KeyOccurs(pairs, k) {
      var i :| 0 <= i < |rows| && rows[i][groupColumn] == k;
      assert pairs[i].0 == k;
    }
  }

  /** The whole spreadsheet run: the detail table in row order and the
      consolidated report, one row per group value holding the sum of the
      annual costs of that group's rows, sorted from the largest sum down,
      whose grand sum is the sum over all rows (app.py:204-224). */
  method RunBatch(rows: seq<Row>, salaryColumn: string, groupColumn: string, template: Profile)
    returns (detail: seq<DetailRow>, report: seq<(Cell, real)>)
    requires SalariesPresent(rows, salaryColumn) && GroupsPresent(rows, groupColumn)
    ensures |detail| == |rows|
    ensures forall i :: 0 <= i < |rows| ==>
      detail[i].input == rows[i] && detail[i].costs == Compute(RowProfile(template, rows[i], salaryColumn))
    ensures DistinctKeys(report) && NonIncreasing(report)
    ensures forall k :: KeyOccurs(report, k) <==> exists i :: 0 <= i < |rows| && rows[i][groupColumn] == k
    ensures forall j :: 0 <= j < |report| ==>
      report[j].1 == SumOf(RowAnnuals(rows, salaryColumn, groupColumn, template), report[j].0)
    ensures SumValues(report) == SumValues(RowAnnuals(rows, salaryColumn, groupColumn, template))
  {
    detail := BuildDetail(rows, salaryColumn, template);
    AnnualColumnMatches(rows, salaryColumn, groupColumn, template, detail);
    report := GroupSumSorted(AnnualByGroup(detail, groupColumn));
    RowAnnualsKeys(rows, salaryColumn, groupColumn, template);
  }
}

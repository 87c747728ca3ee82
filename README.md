# Employer cost of an employee under Brazilian labour regimes

A Dafny model of the calculation core of a Streamlit app that puts a price on
an employee. Given a compensation profile it gives the employer's monthly and
annual cost under one of three regimes: CLT under Simples Nacional, CLT under
Lucro Presumido/Real, and PJ (an invoicing contractor). It also runs that
calculation over every row of a spreadsheet and builds a report of annual cost
per group.

The model follows `app.py`:

- `tables.dfy` (`Tables`): sequences of (key, amount) pairs. It gives sums,
  the sum under one key, the sum under all other keys, lookup by key, and
  distinct keys. A cost ledger and a grouped column are both such sequences.
- `cost_engine.dfy` (`CostEngine`): `calcular_custos`.
  - The regimes are a datatype. Each regime carries the label of its selector
    entry.
  - Which branch runs is decided, as in the program, by the substring test
    `"CLT" in regime`. The employer charges are decided by exact equality with
    the Presumido/Real label.
  - The ledger is the program's dictionary, kept as a sequence in insertion
    order. Amounts are `real`.
- `cost_properties.dfy` (`CostProperties`): lemmas about the ledger. They cover
  distinct labels, the annual total being twelve times the monthly total, the
  monthly total under each regime, non-negativity, the INSS ceiling, FGTS, and
  a worked example at the form's default values.
- `display.dfy` (`Display`): the "0 when the salary is 0" guard on the
  multiplier, and the filter for the line-item table.
- `grouping.dfy` (`Grouping`): `groupby(...).sum()` and the descending sort.
  A loop keeps a running sum per key in a `map`. Then each key is inserted at
  its place in a report kept in non-increasing order.
- `batch.dfy` (`Batch`): the spreadsheet run.
  - Each row's salary is put into the shared settings. Each row goes into the
    detail table beside its ledger, in row order.
  - The "Custo Total Anual" column is then grouped by the chosen column.

Choices the code makes, which the model keeps:

- FGTS is taken on the raw salary.
- Under PJ the invoice value stays in the monthly total. Under CLT the base
  salary is removed from it.
- The report has no grand-total row.
- No row is skipped. No error is raised for a negative input. The two
  columns are chosen from the table's own columns.

## Model

| member | source | states |
|---|---|---|
| Tables.SumValues | app.py:103 | the sum of the ledger's values is non-negative when every value is |
| Tables.Lookup | app.py:178-179 | reading a key finds a value exactly when the key occurs, and the value is one filed under that key |
| Tables.SumSplits | app.py:103-107 | the total splits into the amount under one label plus the amount under all other labels |
| Tables.SumOfDistinct | app.py:70-88 | with distinct labels, the amount under a label is that line's value |
| Tables.LookupDistinct | app.py:178-179 | with distinct labels, reading a label returns that line's value |
| CostEngine.ThirteenthProvision | app.py:44 | twelve monthly 13th-salary accruals make one salary, and there is none when provisions are off |
| CostEngine.VacationProvision | app.py:45 | twelve monthly vacation accruals make a salary plus one third, which is 4/3 of the 13th accrual; none when provisions are off |
| CostEngine.Transit | app.py:52-55 | the employer's transit cost is max(0, gross − 6% of salary); for non-negative inputs it lies between 0 and the gross cost |
| CostEngine.Fgts | app.py:48 | for a non-negative salary the deposit lies between 0 and the salary |
| CostEngine.FgtsPenalty | app.py:49 | 40% of the FGTS deposit, i.e. 3.2% of the salary |
| CostEngine.TransitGross | app.py:52 | the gross transit cost is non-negative when passes per day and the price are |
| CostEngine.InssBase | app.py:64 | the contribution base is the salary or the 8157.41 ceiling, whichever is smaller |
| CostEngine.EmployerInss | app.py:58-66 | 0 unless the regime label is exactly the Presumido/Real one; for a non-negative salary between 0 and 20% of the ceiling |
| CostEngine.Rat | app.py:59-67 | 0 unless the regime is Presumido/Real; for a non-negative salary and rate between 0 and ceiling × rat_perc/100 |
| CostEngine.ThirdParty | app.py:60-68 | 0 unless the regime is Presumido/Real; for a non-negative salary and rate between 0 and ceiling × terceiros_perc/100 |
| CostEngine.Items | app.py:70-101 | 17 lines under CLT and 9 under PJ; the CLT lines add up to the salary plus every provision, charge and benefit, the PJ lines to the invoice plus every benefit |
| CostEngine.MonthlyTotal | app.py:103-109 | under CLT the employer's additional cost (every provision, charge and benefit, without the salary); under PJ the invoice plus every benefit |
| CostEngine.Compute | app.py:111-114 | the ledger ends with "Custo Total Mensal" and then "Custo Total Anual", the annual being 12 × the monthly |
| CostProperties.RegimeBranches | app.py:42-62 | the substring test sends both CLT labels, and only them, to the CLT branch; only Presumido/Real pays the employer charges |
| CostProperties.ItemsDistinctClt | app.py:70-88 | the 17 CLT line labels are pairwise distinct, whatever the rendered rates |
| CostProperties.ItemsDistinctPj | app.py:91-101 | the 9 PJ line labels are pairwise distinct |
| CostProperties.ItemsClearOfTotals | app.py:70-101 | no line label can collide with the two total labels |
| CostProperties.LabelsDistinct | app.py:70-112 | the whole ledger, totals included, has distinct labels, so the sequence is the dictionary |
| CostProperties.AnnualIsTwelveMonthly | app.py:111-112 | reading the ledger by label gives the monthly total, and an annual total of exactly 12 × the monthly |
| CostProperties.ReportedAnnualIsTwelveMonthly | app.py:112 | the value stored under "Custo Total Anual" is 12 × the monthly total |
| CostProperties.CltMonthlyTotal | app.py:103-107 | under CLT the monthly total is the sum of all lines except "Salário Base", i.e. the employer's additional cost |
| CostProperties.PjMonthlyTotal | app.py:103-109 | under PJ the monthly total is the sum of all lines, including "Valor Nota Fiscal (PJ)" |
| CostProperties.LedgerNonNegative | app.py:39-112 | with non-negative inputs every ledger amount, totals included, is non-negative |
| CostProperties.ChargesCappedAtCeiling | app.py:62-68 | once the salary is at the ceiling, a raise changes none of the three employer charges |
| CostProperties.FgtsIgnoresProvisionFlag | app.py:44-49 | FGTS and its 40% penalty provision do not depend on the provision flag |
| CostProperties.DefaultProfileCosts | app.py:122-153 | at the form's defaults and a salary of 3000 the transit cost is 62, the monthly total 5344/3, the annual 21376 and the multiplier 5344/9000 |
| Display.Multiplier | app.py:181 | 0 when the salary is 0; otherwise multiplier × salary equals the monthly total |
| Display.DetailView | app.py:185-186 | the table holds exactly the ledger lines with a positive value and a label without "Total" |
| Display.TotalsNotShown | app.py:186 | neither total line ever reaches the table |
| Display.DetailViewAppend | app.py:186 | the filter keeps the ledger's order |
| Grouping.InsertionPoint | app.py:223-224 | in a report sorted in non-increasing order, the position after every sum ≥ v and before every smaller one |
| Grouping.Accumulate | app.py:220-221 | the running map holds exactly the keys that occur, each with the sum of its amounts |
| Grouping.SortedReport | app.py:222-224 | one row per key of the map, with its sum, keys distinct, in non-increasing order |
| Grouping.InsertSorted | app.py:223-224 | inserting a new key at that position keeps the report sorted, keys distinct, and adds exactly that row |
| Grouping.SumGroupsStep | app.py:220-221 | one more row adds its amount to exactly the group of its key |
| Grouping.SumGroupsCover | app.py:220-221 | summing the groups of a report that names every key once gives the sum of all rows |
| Grouping.GroupsPartitionTotal | app.py:220-221 | grouping loses and duplicates nothing: the report's grand sum is the sum over all rows |
| Grouping.GroupSumSorted | app.py:218-224 | one row per distinct key, each with its group's sum, keys distinct, non-increasing, with total preserved |
| Batch.BuildDetail | app.py:204-214 | the detail table has one row per input row, in input order, each beside the ledger computed for that row's salary |
| Batch.RowAnnual | app.py:205-212 | the annual cost a row contributes is 12 × the monthly total of the shared settings with that row's salary |
| Batch.AnnualColumnMatches | app.py:212-220 | the annual column read back from the detail table is each row's reported annual cost |
| Batch.RowAnnualsKeys | app.py:220 | the group values of the annual column are exactly those of the input rows |
| Batch.RunBatch | app.py:204-224 | detail in row order; report with one row per group value of the input, each holding the sum of that group's annual costs (12 × each row's monthly total), in non-increasing order, with the grand sum preserved |

## Left out

- Page configuration, CSS, sidebar widgets, tabs and metric cards (app.py:7-33, 117-189) are left out: they are interface binding. The widgets' lower bounds appear only as the `NonNegativeInputs` precondition of the non-negativity lemma.
- File upload and CSV/XLSX parsing (app.py:194-201) are left out as input/output. So are the Excel export and download button (app.py:229-240). A row is modelled as a map from column name to a number or a text.
- The WhatsApp link (app.py:157-158) is left out: it is glue code.
- Currency formatting `R$ {x:,.2f}` (app.py:178-188) is left out: it is presentation.
- The decimal rendering of `rat_perc` and `terceiros_perc` inside two labels (app.py:77-78) is not computed. The rendered texts are inputs of the profile (`ratText`, `thirdPartyText`).
- IEEE floating-point rounding is not modelled. Amounts are exact reals.
- pandas behaviour outside the plain fold is left out:
  - rows whose group value is NaN are dropped;
  - a text salary cell raises, so `SalariesPresent` requires a number in every row;
  - an input column named like a ledger label would be duplicated by `concat`.
- Grouping.GroupSumSorted: rows with equal sums come in no promised order, since `sort_values` uses an unstable sort by default. The model promises only non-increasing order.
- Display.DetailView: its contract states which lines are shown. Their order is stated separately by `DetailViewAppend`.
- Batch.RunBatch: on a spreadsheet with a header and no data rows the program raises KeyError at app.py:220, because the frame of results has no "Custo Total Anual" column. The model returns an empty detail table and an empty report instead.
- Batch.RunBatch: a blank salary cell arrives as NaN and does not raise. The salary or invoice line and every amount computed from it, both totals included, become NaN: the provisions when they are accrued, FGTS and its penalty, and the Presumido/Real charges (app.py:44-68). The flat benefits keep their values. The transit line becomes 0, because `min` keeps its first argument when compared with NaN (app.py:54-55). `groupby().sum()` then skips the NaN annual total, so the row adds nothing to its group (app.py:220-221). `SalariesPresent` excludes such rows, so none of this is modelled.

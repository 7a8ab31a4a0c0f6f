# Real-estate payroll: a verified model of the payroll pipeline

This project models the payroll core of a commission-tracking web application
for real-estate brokerages. Employees earn a commission on each sale. An
administrator groups completed sales into payroll periods and generates a
payment per employee and period. The payment carries five tax withholdings and
a net amount. It is created as `pending` and later marked `processed`.

Money is in integer cents. Rates are integer percentages times 100, so 500 is
5 %. Over exact reals, JavaScript's `Math.round(x)` is `floor(x + 1/2)`; on
doubles the addition itself can round. For an integer `n`,
`Math.round(n / 10000)` is therefore `(n + 5000) / 10000` in Dafny's floor
division, negative `n` included. `Payroll.MathRound` gives `Math.round` on an
exact real. The lemmas tie every integer formula to the source's formula over
the reals.

Modules, one per source file or layer:

- `wrappers.dfy` (`Wrappers`): `Option` and `Result`.
- `schema.dfy` (`Schema`): the records of `drizzle/schema.ts` with the columns
  the core reads or writes. It also holds the partial-update records and the
  errors.
- `db.dfy` (`Db`): the persistence layer of `server/db.ts` as in-memory
  tables. A table is a `seq<Row<T>>` keyed by auto-increment ids. The class
  `Database` keeps the primary-key invariant `Valid()`. It has one create and
  one update method per table. `Find`, `TransactionsOf` and
  `ActiveTaxSettings` are the reads.
- `payroll.dfy` (`Payroll`): `server/payroll.ts`. It holds the three pure
  calculators and the gross commission as a filter and a reduce. `PlanPayment`
  is the pure decision of payment generation. `GeneratePaymentForEmployee` and
  `ProcessPayment` are the methods that write the payments table.
- `routers.dfy` (`Routers`): the admin mutations of `server/routers.ts`, with
  the admin gate, the input defaults and the commission recompute rule.

Behaviour worth knowing, all taken from the code:

- `getTransactions(employeeId)` returns every transaction when the id is
  falsy (0). `Db.TransactionsOf` keeps this.
- With no active tax setting, the default branch fixes state and local tax at
  0 whatever the gross. With settings present, only the first active one is
  read.
- Updating a transaction recomputes its commission only when the update
  supplies both a non-zero sale amount and a non-zero rate. Setting a sale
  amount to 0 therefore keeps the old commission
  (`Routers.ZeroSaleKeepsStaleCommission`).
- `processPayment` has no guard on the current status. A second call only
  re-stamps the date.
- Nothing stops two payments for the same employee and period. Each successful
  generation appends one row.

Processing an unknown payment issues an `UPDATE ... WHERE id = ?` that
matches no row. It does not fail. `ProcessPayment` therefore changes nothing
for an unknown id and reports no error.

## Model

| member | source | states |
|---|---|---|
| `Db.Find` | server/db.ts:98-103 | a read by id finds a row exactly when some row has that id, and returns that row's record |
| `Db.FindKeyed` | server/db.ts:98-103 | under the primary-key invariant, a read by a row's id returns that row's record |
| `Db.TransactionsOf` | server/db.ts:118-125 | returns only the employee's transactions and all of them, each a record stored in the table; an id of 0 returns every transaction |
| `Db.TransactionsOfAppend` | server/db.ts:118-125 | selecting from two tables joined is selecting from each in turn, so every matching row appears once per occurrence |
| `Db.TransactionsOfOne` | server/db.ts:121-124 | one row is returned exactly when the id is 0 or the row belongs to the employee |
| `Db.ActiveTaxSettings` | server/db.ts:180-184 | returns only settings whose `isActive` is 1, each a record stored in the table, and every such setting (a null flag is excluded) |
| `Db.NoActiveSettings` | server/db.ts:180-184 | with no active row the result is empty, which sends the withholding calculation to its default rates |
| `Db.FirstActiveSetting` | server/db.ts:180-184 | the first setting returned comes from the first active row, in the table order the model chooses (the query has no `ORDER BY`) |
| `Db.Database.CreateEmployee` | server/db.ts:105-110 | appends the employee under the next id, keeps the key invariant, touches only the employees table |
| `Db.Database.UpdateEmployee` | server/db.ts:112-116 | writes the given fields into the row with that id and nothing else |
| `Db.Database.CreateTransaction` | server/db.ts:134-138 | appends the transaction under the next id and keeps the key invariant |
| `Db.Database.UpdateTransaction` | server/db.ts:140-144 | writes the given fields into the row with that id and nothing else |
| `Db.Database.CreatePayment` | server/db.ts:162-166 | appends the payment under the next id and keeps the key invariant |
| `Db.Database.UpdatePayment` | server/db.ts:168-172 | writes the given fields into the row with that id and nothing else |
| `Db.Database.CreatePayrollPeriod` | server/db.ts:199-203 | appends the period under the next id and keeps the key invariant |
| `Db.Database.UpdatePayrollPeriod` | server/db.ts:205-209 | writes the given status into the row with that id and nothing else |
| `Payroll.RoundScaled` | server/payroll.ts:9 | the result is the integer nearest to n / 10000, a half rounded up |
| `Payroll.RoundScaledIsMathRound` | server/payroll.ts:9 | the integer rounding equals `Math.round(n / 10000)` over exact reals |
| `Payroll.CalculateCommission` | server/payroll.ts:7-10 | the commission is sale × rate / 10000 rounded to the nearest cent; a zero sale or rate gives 0 |
| `Payroll.CommissionIsMathRound` | server/payroll.ts:7-10 | the commission equals `Math.round((sale * rate) / 10000)` over exact reals |
| `Payroll.CommissionNonNegative` | server/payroll.ts:7-10 | a non-negative sale at a non-negative rate earns a non-negative commission |
| `Payroll.CommissionMonotone` | server/payroll.ts:7-10 | a larger sale at the same non-negative rate never earns less |
| `Payroll.CommissionExamples` | server/payroll.test.ts:5-31 | the test figures: 500000, 150000, 0, 1000000, and 1000000 for $250,000 at 4 % |
| `Payroll.CalculateTaxWithholdings` | server/payroll.ts:15-38 | a gross of 0 withholds nothing; with no setting, state and local tax are 0; non-negative gross and rates give non-negative withholdings |
| `Payroll.DefaultWithholdingsMatchSource` | server/payroll.ts:18-27 | with no setting the components are `Math.round` of gross × 0.12, 0, 0, gross × 0.062 and gross × 0.0145 over exact reals |
| `Payroll.SettingWithholdingsMatchSource` | server/payroll.ts:29-37 | with settings each component is `Math.round(gross × rate / 10000)` at the first setting's rate; missing rates fall back to 0, 0, 620 and 145; later settings are ignored |
| `Payroll.OnlyFirstSettingCounts` | server/payroll.ts:29 | two setting lists with the same first element withhold the same amounts |
| `Payroll.DefaultsAgreeWithBareSetting` | server/payroll.ts:18-37 | the default branch equals a setting of 12 % federal with every other rate missing |
| `Payroll.WithholdingExamples` | server/payroll.test.ts:35-57 | on $1,000 the defaults withhold 12000, 0, 0, 6200 and 1450 cents |
| `Payroll.CalculateNetPay` | server/payroll.ts:43-53 | the net is at least 0, at least gross minus the five withholdings, and equal to one of the two |
| `Payroll.NetPayWithinGross` | server/payroll.ts:43-53 | for non-negative gross and rates, 0 ≤ net ≤ gross |
| `Payroll.DefaultNetPayPositive` | server/payroll.ts:43-53 | under the default rates every positive gross leaves a positive net |
| `Payroll.DefaultNetPayBelowGross` | server/payroll.ts:43-53 | under the default rates a gross of 5 cents or more nets strictly less than the gross |
| `Payroll.SmallGrossIsUntaxed` | server/payroll.ts:43-53 | under the default rates a gross below 5 cents is paid in full |
| `Payroll.NetPayOfThousandDollars` | server/payroll.test.ts:87-95 | $1,000 gross nets 80350 cents under the default rates |
| `Payroll.PeriodTransactions` | server/payroll.ts:77-81 | keeps exactly the transactions that are completed and dated inside the inclusive period window |
| `Payroll.SumCommission` | server/payroll.ts:84 | the reduce over non-negative commissions is non-negative |
| `Payroll.GrossCommission` | server/payroll.ts:77-84 | the gross is 0 when no transaction qualifies, and non-negative when all commissions are |
| `Payroll.SumCommissionAppend` | server/payroll.ts:84 | the sum over a concatenation is the sum of the sums |
| `Payroll.PeriodTransactionsAppend` | server/payroll.ts:77-81 | the filter distributes over concatenation |
| `Payroll.GrossAppend` | server/payroll.ts:77-84 | the gross over a concatenation is the sum of the grosses |
| `Payroll.GrossOfOne` | server/payroll.ts:77-84 | a single transaction contributes its stored commission if it qualifies, else 0 |
| `Payroll.GrossSkipsNonQualifying` | server/payroll.ts:77-81 | a pending, cancelled or out-of-window transaction anywhere in the list does not change the gross |
| `Payroll.GrossCountsQualifying` | server/payroll.ts:77-84 | a qualifying transaction anywhere in the list adds exactly its stored commission |
| `Payroll.GrossOrderIndependent` | server/payroll.ts:69-84 | lists with the same elements, in any order, have the same gross |
| `Payroll.GrossExample` | server/payroll.test.ts:141-154 | the three test sales, completed in the period, give a gross of 1400000 cents |
| `Payroll.PlanPayment` | server/payroll.ts:58-107 | a missing employee fails first, then a missing period; a zero gross gives no payment; otherwise a pending, undated payment with the gross, its withholdings, its net pay and the given method |
| `Payroll.GeneratedPaymentIsBalanced` | server/payroll.ts:91-107 | a generated payment's net is its gross minus its own tax fields, floored at 0 |
| `Payroll.PlanIgnoresTransactionOrder` | server/payroll.ts:69-84 | generation does not depend on the order in which transactions are read |
| `Payroll.GeneratePaymentForEmployee` | server/payroll.ts:58-117 | returns the planned outcome for what it reads; appends exactly one payment when there is one and none otherwise; leaves transactions unchanged |
| `Payroll.ProcessedPayment` | server/payroll.ts:122-127 | status becomes processed and the date becomes now; every other field is kept |
| `Payroll.ReprocessingRestamps` | server/payroll.ts:122-127 | processing twice equals processing once at the later time |
| `Payroll.ProcessingKeepsBalance` | server/payroll.ts:122-127 | processing keeps the net-pay invariant of a payment |
| `Payroll.ProcessedRows` | server/payroll.ts:123-126 | rows with the id are processed; all other rows are kept |
| `Payroll.ProcessPayment` | server/payroll.ts:122-127 | the payments table becomes the processed rows; nothing else changes; an unknown id changes nothing |
| `Routers.NewEmployee` | server/routers.ts:37-51 | the new employee belongs to the caller, has base rate 500 unless one is given, and is always active |
| `Routers.EmployeesCreate` | server/routers.ts:40-51 | a non-admin gets Unauthorized and nothing changes; an admin appends the new employee |
| `Routers.EmployeesUpdate` | server/routers.ts:63-66 | a non-admin gets Unauthorized and nothing changes; an admin writes the given fields |
| `Routers.NewTransaction` | server/routers.ts:86-100 | the new transaction stores the commission computed from its sale and rate, and status pending |
| `Routers.TransactionsCreate` | server/routers.ts:86-100 | a non-admin gets Unauthorized and nothing changes; an admin appends the new transaction |
| `Routers.TransactionUpdateData` | server/routers.ts:111-116 | the update carries the given fields, and a commission exactly when both sale and rate are given and non-zero |
| `Routers.UpdateRecomputesCommission` | server/routers.ts:114-116 | with both a non-zero sale and a non-zero rate given, the updated commission agrees with the new sale and rate |
| `Routers.UpdateKeepsCommission` | server/routers.ts:113-118 | otherwise the stored commission is left as it was |
| `Routers.ZeroSaleKeepsStaleCommission` | server/routers.ts:114 | setting the sale to 0 keeps a non-zero commission, which then disagrees with the sale |
| `Routers.TransactionsUpdate` | server/routers.ts:109-118 | a non-admin gets Unauthorized and nothing changes; an admin writes the update data into the row |
| `Routers.PaymentsProcess` | server/routers.ts:129-131 | a non-admin gets Unauthorized and nothing changes; an admin processes the payment |
| `Routers.ChosenMethod` | server/routers.ts:140 | the payment method is direct deposit unless one is given |
| `Routers.PayrollGeneratePayment` | server/routers.ts:142-144 | a non-admin gets Unauthorized and nothing changes; an admin generates a payment with the chosen method |
| `Routers.NewPayrollPeriod` | server/routers.ts:162-167 | the new period has the given name and window and is always open |
| `Routers.PayrollPeriodsCreate` | server/routers.ts:160-167 | a non-admin gets Unauthorized and nothing changes; an admin appends the new period |
| `Routers.PayrollPeriodsUpdate` | server/routers.ts:174-177 | a non-admin gets Unauthorized and nothing changes; an admin writes the given status |

## Left out

- Payroll.DefaultWithholdingsMatchSource: states the default branch over exact reals. The source multiplies doubles by 0.12, 0.062 and 0.0145, and the rounding of those doubles can differ from the exact result on rare inputs (the product can land just beside a half). The model proves the exact-real equality only and states nothing about the double computation.
- Payroll.CalculateCommission: never overflows. JavaScript numbers are doubles and the database columns are 32-bit integers; precision loss above 2^53 and column overflow are not modelled. The same holds for every tax and net figure.
- Input types: `z.number()` also accepts fractional numbers. The model takes integers, as the integer columns store them.
- Database availability: when no database is configured, reads return empty or absent results and writes throw "Database not available". The model always has its tables.
- Asynchrony and concurrency: every call runs to completion. `calculateNetPay` reads the tax settings a second time in the source, and the model gives both calculations the same settings. Two concurrent generations racing on the same table are not modelled.
- Ordering of tax settings: `getTaxSettings` has no `ORDER BY`, so which active setting comes first, and so which rates apply when several are active, is left to the database. The model takes table order (`Db.FirstActiveSetting`).
- Ordering: `getTransactions` sorts by transaction date. The model keeps table order, because `Payroll.GrossOrderIndependent` shows the gross and the generated payment do not depend on order.
- Returned values: the created payment is returned with `id: 0`, and creation and update times are added by the database. The model returns the payment record without them. Inserts return the new row's id and updates return `Ok(())`, in place of the driver's result objects.
- Columns the core never writes are not modelled: creation and update times, notes, and the employee's address, tax and bank fields. The schema's own default `baseCommissionRate` of 5 is not modelled either, because `employees.create` always passes a rate.
- Foreign keys: the schema declares `employeeId` and `payrollPeriodId` as references. The model does not enforce them, so `transactions.create` accepts any employee id.
- An update whose every field is absent is modelled as writing nothing. What the ORM does with an empty update is not part of this model.
- Authentication, cookies and schema validation (for example e-mail format) are reduced to an optional caller with a role and well-typed inputs.
- Read-only queries (`list`, `getById`, `settings.*`, `payroll.calculateTaxes`, `auth.*`) are not modelled. Neither is `getPayrollSummary`, a placeholder that returns constant zeros.
- Clocks: `new Date()` in `processPayment` is the `now` parameter.

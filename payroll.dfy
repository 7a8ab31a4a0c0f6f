/** The payroll pipeline: commission, tax withholding and net pay in integer
    cents, the gross commission of an employee over a payroll period, the
    generation of a pending payment, and its processing. */
module Payroll {
  import opened Wrappers
  import opened Schema
  import opened Db

  // ---------------------------------------------------------------------
  // Rounding

  /** JavaScript's `Math.round` on an exact real: the nearest integer, a
      half rounded toward positive infinity. */
  function MathRound(x: real): int {
    (x + 0.5).Floor
  }

  /** `Math.round(n / 10000)` in integer arithmetic: the integer nearest to
      n / 10000, a half rounded up. */
  function RoundScaled(n: int): (r: int)
    ensures 10000 * r - 5000 <= n < 10000 * r + 5000
  {
    (n + 5000) / 10000
  }

  lemma RoundScaledIsMathRound(n: int)
    ensures RoundScaled(n) == MathRound(n as real / 10000.0)
  {
    var r := RoundScaled(n);
    var x := n as real / 10000.0 + 0.5;
    assert x == (n + 5000) as real / 10000.0;
    assert r as real <= x < r as real + 1.0;
  }

  // ---------------------------------------------------------------------
  // Commission

  /** The commission on a sale in cents at a rate in hundredths of a
      percent, rounded to the nearest cent. */
  function CalculateCommission(saleAmount: Cents, commissionRate: Rate): (c: Cents)
    ensures 10000 * c - 5000 <= saleAmount * commissionRate < 10000 * c + 5000
    ensures saleAmount == 0 || commissionRate == 0 ==> c == 0
  {
    RoundScaled(saleAmount * commissionRate)
  }

  /** The integer formula is `Math.round((saleAmount * commissionRate) / 10000)`
      evaluated exactly. */
  lemma CommissionIsMathRound(saleAmount: Cents, commissionRate: Rate)
    ensures CalculateCommission(saleAmount, commissionRate)
         == MathRound((saleAmount * commissionRate) as real / 10000.0)
  {
    RoundScaledIsMathRound(saleAmount * commissionRate);
  }

  lemma CommissionNonNegative(saleAmount: Cents, commissionRate: Rate)
    requires saleAmount >= 0 && commissionRate >= 0
    ensures CalculateCommission(saleAmount, commissionRate) >= 0
  {
    assert saleAmount * commissionRate >= 0;
  }

  /** A larger sale never earns less commission at the same rate. */
  lemma CommissionMonotone(sale1: Cents, sale2: Cents, commissionRate: Rate)
    requires sale1 <= sale2 && commissionRate >= 0
    ensures CalculateCommission(sale1, commissionRate) <= CalculateCommission(sale2, commissionRate)
  {
    assert sale2 * commissionRate - sale1 * commissionRate == (sale2 - sale1) * commissionRate;
    assert (sale2 - sale1) * commissionRate >= 0;
  }

  lemma CommissionExamples()
    ensures CalculateCommission(10000000, 500) == 500000
    ensures CalculateCommission(5000000, 300) == 150000
    ensures CalculateCommission(0, 500) == 0
    ensures CalculateCommission(10000000, 1000) == 1000000
    ensures CalculateCommission(25000000, 400) == 1000000
  {
  }

  // ---------------------------------------------------------------------
  // Tax withholding

  datatype Withholdings = Withholdings(
    federalTax: Cents,
    stateTax: Cents,
    localTax: Cents,
    socialSecurity: Cents,
    medicare: Cents)

  function TotalWithholdings(w: Withholdings): Cents {
    w.federalTax + w.stateTax + w.localTax + w.socialSecurity + w.medicare
  }

  /** Every rate the calculation would use, fallbacks included, is
      non-negative. */
  predicate NonNegativeRates(settings: seq<TaxSetting>) {
    settings == [] ||
    (settings[0].federalTaxRate >= 0 &&
     settings[0].stateTaxRate.GetOr(0) >= 0 &&
     settings[0].localTaxRate.GetOr(0) >= 0 &&
     settings[0].socialSecurityRate.GetOr(620) >= 0 &&
     settings[0].medicareRate.GetOr(145) >= 0)
  }

  /** The five withholdings on a gross amount.  With no active tax setting
      the statutory defaults apply (12 % federal, no state or local tax,
      6.2 % social security, 1.45 % medicare); otherwise only the first
      setting is used, a missing state or local rate counting as 0 and a
      missing social security or medicare rate as 620 or 145. */
  function CalculateTaxWithholdings(settings: seq<TaxSetting>, grossAmount: Cents): (w: Withholdings)
    ensures grossAmount == 0 ==> w == Withholdings(0, 0, 0, 0, 0)
    ensures settings == [] ==> w.stateTax == 0 && w.localTax == 0
    ensures grossAmount >= 0 && NonNegativeRates(settings) ==>
      w.federalTax >= 0 && w.stateTax >= 0 && w.localTax >= 0 &&
      w.socialSecurity >= 0 && w.medicare >= 0
  {
    if |settings| == 0 then
      Withholdings(
        RoundScaled(grossAmount * 1200),
        0,
        0,
        RoundScaled(grossAmount * 620),
        RoundScaled(grossAmount * 145))
    else
      var s := settings[0];
      Withholdings(
        RoundScaled(grossAmount * s.federalTaxRate),
        RoundScaled(grossAmount * s.stateTaxRate.GetOr(0)),
        RoundScaled(grossAmount * s.localTaxRate.GetOr(0)),
        RoundScaled(grossAmount * s.socialSecurityRate.GetOr(620)),
        RoundScaled(grossAmount * s.medicareRate.GetOr(145)))
  }

  /** With no tax setting each withholding is the source's own rounding of
      gross times 0.12, 0.062 and 0.0145, evaluated exactly. */
  lemma DefaultWithholdingsMatchSource(grossAmount: Cents)
    ensures var w := CalculateTaxWithholdings([], grossAmount);
      w.federalTax == MathRound(grossAmount as real * 0.12) &&
      w.stateTax == 0 && w.localTax == 0 &&
      w.socialSecurity == MathRound(grossAmount as real * 0.062) &&
      w.medicare == MathRound(grossAmount as real * 0.0145)
  {
    RoundScaledIsMathRound(grossAmount * 1200);
    RoundScaledIsMathRound(grossAmount * 620);
    RoundScaledIsMathRound(grossAmount * 145);
    assert (grossAmount * 1200) as real / 10000.0 == grossAmount as real * 0.12;
    assert (grossAmount * 620) as real / 10000.0 == grossAmount as real * 0.062;
    assert (grossAmount * 145) as real / 10000.0 == grossAmount as real * 0.0145;
  }

  /** With tax settings each withholding is
      `Math.round((gross * rate) / 10000)` at the first setting's rate, or at
      the rate's fallback when it is missing, and the later settings play no
      part. */
  lemma SettingWithholdingsMatchSource(s: TaxSetting, rest: seq<TaxSetting>, grossAmount: Cents)
    ensures var w := CalculateTaxWithholdings([s] + rest, grossAmount);
      w.federalTax == MathRound((grossAmount * s.federalTaxRate) as real / 10000.0) &&
      w.stateTax == MathRound((grossAmount * s.stateTaxRate.GetOr(0)) as real / 10000.0) &&
      w.localTax == MathRound((grossAmount * s.localTaxRate.GetOr(0)) as real / 10000.0) &&
      w.socialSecurity == MathRound((grossAmount * s.socialSecurityRate.GetOr(620)) as real / 10000.0) &&
      w.medicare == MathRound((grossAmount * s.medicareRate.GetOr(145)) as real / 10000.0)
  {
    RoundScaledIsMathRound(grossAmount * s.federalTaxRate);
    RoundScaledIsMathRound(grossAmount * s.stateTaxRate.GetOr(0));
    RoundScaledIsMathRound(grossAmount * s.localTaxRate.GetOr(0));
    RoundScaledIsMathRound(grossAmount * s.socialSecurityRate.GetOr(620));
    RoundScaledIsMathRound(grossAmount * s.medicareRate.GetOr(145));
  }

  /** Only the first setting is read. */
  lemma OnlyFirstSettingCounts(a: seq<TaxSetting>, b: seq<TaxSetting>, grossAmount: Cents)
    requires a != [] && b != [] && a[0] == b[0]
    ensures CalculateTaxWithholdings(a, grossAmount) == CalculateTaxWithholdings(b, grossAmount)
  {
  }

  /** The default branch withholds what a 12 % federal setting with every
      other rate missing would. */
  lemma DefaultsAgreeWithBareSetting(name: string, isActive: Option<int>, grossAmount: Cents)
    ensures CalculateTaxWithholdings([], grossAmount)
         == CalculateTaxWithholdings([TaxSetting(name, 1200, None, None, None, None, isActive)], grossAmount)
  {
  }

  lemma WithholdingExamples()
    ensures CalculateTaxWithholdings([], 100000) == Withholdings(12000, 0, 0, 6200, 1450)
    ensures CalculateTaxWithholdings([], 1000000) == Withholdings(120000, 0, 0, 62000, 14500)
  {
  }

  // ---------------------------------------------------------------------
  // Net pay

  function Max(a: int, b: int): int {
    if a >= b then a else b
  }

  /** Gross less the five withholdings, never below zero. */
  function CalculateNetPay(settings: seq<TaxSetting>, grossAmount: Cents): (net: Cents)
    ensures net >= 0
    ensures net >= grossAmount - TotalWithholdings(CalculateTaxWithholdings(settings, grossAmount))
    ensures net == 0 || net == grossAmount - TotalWithholdings(CalculateTaxWithholdings(settings, grossAmount))
  {
    var taxes := CalculateTaxWithholdings(settings, grossAmount);
    var totalDeductions :=
      taxes.federalTax + taxes.stateTax + taxes.localTax + taxes.socialSecurity + taxes.medicare;
    Max(0, grossAmount - totalDeductions)
  }

  lemma NetPayWithinGross(settings: seq<TaxSetting>, grossAmount: Cents)
    requires grossAmount >= 0 && NonNegativeRates(settings)
    ensures 0 <= CalculateNetPay(settings, grossAmount) <= grossAmount
  {
  }

  /** Under the default rates any positive gross leaves a positive net. */
  lemma DefaultNetPayPositive(grossAmount: Cents)
    requires grossAmount > 0
    ensures CalculateNetPay([], grossAmount) > 0
  {
    var w := CalculateTaxWithholdings([], grossAmount);
    if grossAmount >= 2 {
      assert 10000 * TotalWithholdings(w) <= grossAmount * 1965 + 15000;
    } else {
      assert w == Withholdings(0, 0, 0, 0, 0);
    }
  }

  /** Under the default rates a gross of 5 cents or more is taxed: the net is
      strictly less than the gross. Below 5 cents every default
      withholding rounds to 0. */
  lemma DefaultNetPayBelowGross(grossAmount: Cents)
    requires grossAmount >= 5
    ensures CalculateNetPay([], grossAmount) < grossAmount
  {
    var w := CalculateTaxWithholdings([], grossAmount);
    assert w.federalTax >= 1;
  }

  lemma SmallGrossIsUntaxed(grossAmount: Cents)
    requires 0 <= grossAmount < 5
    ensures CalculateNetPay([], grossAmount) == grossAmount
  {
  }

  /** The source's test figure: $1,000 gross nets $803.50 under the default
      rates. */
  lemma NetPayOfThousandDollars()
    ensures CalculateNetPay([], 100000) == 80350
  {
    assert CalculateTaxWithholdings([], 100000) == Withholdings(12000, 0, 0, 6200, 1450);
  }

  // ---------------------------------------------------------------------
  // Gross commission over a payroll period

  /** A transaction is paid in a period when it is completed and its date
      lies in the period's inclusive window. */
  predicate Qualifies(t: Transaction, period: PayrollPeriod) {
    t.transactionDate >= period.startDate &&
    t.transactionDate <= period.endDate &&
    t.status == TransactionStatus.Completed
  }

  /** The qualifying transactions, in their original order. */
  function PeriodTransactions(transactions: seq<Transaction>, period: PayrollPeriod): (r: seq<Transaction>)
    ensures forall t :: t in r ==> t in transactions && Qualifies(t, period)
    ensures forall t :: t in transactions && Qualifies(t, period) ==> t in r
  {
    if transactions == [] then []
    else
      var rest := PeriodTransactions(transactions[1..], period);
      assert forall t :: t in transactions ==> t == transactions[0] || t in transactions[1..];
      if Qualifies(transactions[0], period) then [transactions[0]] + rest else rest
  }

  /** `reduce((sum, t) => sum + t.commissionAmount, 0)`: the left-to-right
      sum of the stored commissions. */
  function SumCommission(transactions: seq<Transaction>): (total: Cents)
    ensures (forall t :: t in transactions ==> t.commissionAmount >= 0) ==> total >= 0
  {
    if transactions == [] then 0
    else
      var init := transactions[..|transactions| - 1];
      assert forall t :: t in init ==> t in transactions;
      SumCommission(init) + transactions[|transactions| - 1].commissionAmount
  }

  function GrossCommission(transactions: seq<Transaction>, period: PayrollPeriod): (gross: Cents)
    ensures (forall t :: t in transactions ==> !Qualifies(t, period)) ==> gross == 0
    ensures (forall t :: t in transactions ==> t.commissionAmount >= 0) ==> gross >= 0
  {
    var r := PeriodTransactions(transactions, period);
    assert r != [] ==> r[0] in r;
    SumCommission(r)
  }

  lemma {:induction false} SumCommissionAppend(a: seq<Transaction>, b: seq<Transaction>)
    ensures SumCommission(a + b) == SumCommission(a) + SumCommission(b)
  {
    if b == [] {
      assert a + b == a;
    } else {
      assert (a + b)[..|a + b| - 1] == a + b[..|b| - 1];
      assert (a + b)[|a + b| - 1] == b[|b| - 1];
      SumCommissionAppend(a, b[..|b| - 1]);
    }
  }

  lemma {:induction false} PeriodTransactionsAppend(a: seq<Transaction>, b: seq<Transaction>, period: PayrollPeriod)
    ensures PeriodTransactions(a + b, period) == PeriodTransactions(a, period) + PeriodTransactions(b, period)
  {
    if a == [] {
      assert a + b == b;
    } else {
      assert (a + b)[0] == a[0];
      assert (a + b)[1..] == a[1..] + b;
      PeriodTransactionsAppend(a[1..], b, period);
    }
  }

  /** Gross over a concatenation is the sum of the grosses. */
  lemma GrossAppend(a: seq<Transaction>, b: seq<Transaction>, period: PayrollPeriod)
    ensures GrossCommission(a + b, period) == GrossCommission(a, period) + GrossCommission(b, period)
  {
    PeriodTransactionsAppend(a, b, period);
    SumCommissionAppend(PeriodTransactions(a, period), PeriodTransactions(b, period));
  }

  /** What one transaction contributes to the gross. */
  lemma GrossOfOne(t: Transaction, period: PayrollPeriod)
    ensures GrossCommission([t], period) == if Qualifies(t, period) then t.commissionAmount else 0
  {
    assert [t][1..] == [];
    if Qualifies(t, period) {
      assert PeriodTransactions([t], period) == [t] + [];
      assert [t] + [] == [t];
      assert [t][..0] == [];
      assert SumCommission([t]) == SumCommission([]) + t.commissionAmount;
    } else {
      assert PeriodTransactions([t], period) == [];
    }
  }

  /** A pending, cancelled or out-of-window transaction adds nothing. */
  lemma GrossSkipsNonQualifying(a: seq<Transaction>, t: Transaction, b: seq<Transaction>, period: PayrollPeriod)
    requires !Qualifies(t, period)
    ensures GrossCommission(a + [t] + b, period) == GrossCommission(a + b, period)
  {
    GrossAppend(a + [t], b, period);
    GrossAppend(a, [t], period);
    GrossAppend(a, b, period);
    GrossOfOne(t, period);
  }

  /** A completed transaction in the window adds exactly its stored
      commission. */
  lemma GrossCountsQualifying(a: seq<Transaction>, t: Transaction, b: seq<Transaction>, period: PayrollPeriod)
    requires Qualifies(t, period)
    ensures GrossCommission(a + [t] + b, period) == GrossCommission(a + b, period) + t.commissionAmount
  {
    GrossAppend(a + [t], b, period);
    GrossAppend(a, [t], period);
    GrossAppend(a, b, period);
    GrossOfOne(t, period);
  }

  /** The gross does not depend on the order in which the transactions are
      read. */
  lemma {:induction false} GrossOrderIndependent(a: seq<Transaction>, b: seq<Transaction>, period: PayrollPeriod)
    requires multiset(a) == multiset(b)
    ensures GrossCommission(a, period) == GrossCommission(b, period)
    decreases |a|
  {
    if a == [] {
      assert b == [];
    } else {
      var t := a[0];
      assert t in multiset(b);
      var j :| 0 <= j < |b| && b[j] == t;
      var b' := b[..j] + b[j + 1..];
      assert b == b[..j] + [t] + b[j + 1..];
      assert a == [] + [t] + a[1..];
      assert a == [t] + a[1..];
      assert multiset(a) == multiset{t} + multiset(a[1..]);
      assert multiset(b) == multiset(b[..j]) + multiset{t} + multiset(b[j + 1..]);
      assert multiset(b') == multiset(b[..j]) + multiset(b[j + 1..]);
      assert multiset(a[1..]) == multiset(a) - multiset{t};
      assert multiset(b') == multiset(b) - multiset{t};
      GrossOrderIndependent(a[1..], b', period);
      if Qualifies(t, period) {
        GrossCountsQualifying([], t, a[1..], period);
        GrossCountsQualifying(b[..j], t, b[j + 1..], period);
      } else {
        GrossSkipsNonQualifying([], t, a[1..], period);
        GrossSkipsNonQualifying(b[..j], t, b[j + 1..], period);
      }
      assert [] + a[1..] == a[1..];
    }
  }

  // ---------------------------------------------------------------------
  // Payment generation

  /** The tax fields of a payment. */
  function Withheld(p: Payment): Withholdings {
    Withholdings(p.federalTax, p.stateTax, p.localTax, p.socialSecurity, p.medicare)
  }

  /** A payment's net is its gross less its own tax fields, floored at 0. */
  predicate Balanced(p: Payment) {
    p.netAmount == Max(0, p.grossAmount - TotalWithholdings(Withheld(p)))
  }

  /** What generating a payment decides, given what it reads: the employee
      and period looked up by id, the employee's transactions and the active
      tax settings.  `Ok(None)` is the source's `null`. */
  function PlanPayment(
    employee: Option<Employee>,
    period: Option<PayrollPeriod>,
    transactions: seq<Transaction>,
    settings: seq<TaxSetting>,
    employeeId: int,
    payrollPeriodId: int,
    paymentMethod: PaymentMethod): (r: Result<Option<Payment>, Error>)
    ensures employee.None? ==> r == Err(EmployeeNotFound)
    ensures employee.Some? && period.None? ==> r == Err(PayrollPeriodNotFound)
    ensures employee.Some? && period.Some? ==>
      r.Ok? && (r.value.None? <==> GrossCommission(transactions, period.value) == 0)
    ensures employee.Some? && period.Some? && r.Ok? && r.value.Some? ==>
      var p := r.value.value;
      var gross := GrossCommission(transactions, period.value);
      p.employeeId == employeeId &&
      p.payrollPeriodId == Some(payrollPeriodId) &&
      p.grossAmount == gross &&
      Withheld(p) == CalculateTaxWithholdings(settings, gross) &&
      p.netAmount == CalculateNetPay(settings, gross) &&
      p.paymentMethod == paymentMethod &&
      p.paymentStatus == PaymentStatus.Pending &&
      p.paymentDate.None?
  {
    if employee.None? then Err(EmployeeNotFound)
    else if period.None? then Err(PayrollPeriodNotFound)
    else
      var grossAmount := GrossCommission(transactions, period.value);
      if grossAmount == 0 then Ok(None)
      else
        var taxes := CalculateTaxWithholdings(settings, grossAmount);
        var netAmount := CalculateNetPay(settings, grossAmount);
        Ok(Some(Payment(
          employeeId, Some(payrollPeriodId), grossAmount,
          taxes.federalTax, taxes.stateTax, taxes.localTax, taxes.socialSecurity, taxes.medicare,
          netAmount, paymentMethod, PaymentStatus.Pending, None)))
  }

  /** A generated payment keeps the net-pay invariant against its own tax
      fields. */
  lemma GeneratedPaymentIsBalanced(
    employee: Option<Employee>, period: Option<PayrollPeriod>, transactions: seq<Transaction>,
    settings: seq<TaxSetting>, employeeId: int, payrollPeriodId: int, paymentMethod: PaymentMethod)
    requires PlanPayment(employee, period, transactions, settings, employeeId, payrollPeriodId, paymentMethod).Ok?
    requires PlanPayment(employee, period, transactions, settings, employeeId, payrollPeriodId, paymentMethod).value.Some?
    ensures Balanced(PlanPayment(employee, period, transactions, settings, employeeId, payrollPeriodId, paymentMethod).value.value)
  {
  }

  /** The planned payment depends on the transactions only through their
      multiset: table order does not matter. */
  lemma PlanIgnoresTransactionOrder(
    employee: Option<Employee>, period: Option<PayrollPeriod>, a: seq<Transaction>, b: seq<Transaction>,
    settings: seq<TaxSetting>, employeeId: int, payrollPeriodId: int, paymentMethod: PaymentMethod)
    requires multiset(a) == multiset(b)
    ensures PlanPayment(employee, period, a, settings, employeeId, payrollPeriodId, paymentMethod)
         == PlanPayment(employee, period, b, settings, employeeId, payrollPeriodId, paymentMethod)
  {
    if period.Some? {
      GrossOrderIndependent(a, b, period.value);
    }
  }

  /** The three-sale scenario of the source's tests: 5 %, 4 % and 6 % of
      $100,000, $150,000 and $50,000, all completed within the period, add up
      to $14,000 of gross commission. */
  lemma GrossExample(t1: Transaction, t2: Transaction, t3: Transaction, period: PayrollPeriod)
    requires t1.commissionAmount == CalculateCommission(10000000, 500)
    requires t2.commissionAmount == CalculateCommission(15000000, 400)
    requires t3.commissionAmount == CalculateCommission(5000000, 600)
    requires Qualifies(t1, period) && Qualifies(t2, period) && Qualifies(t3, period)
    ensures GrossCommission([t1, t2, t3], period) == 1400000
  {
    assert CalculateCommission(10000000, 500) == 500000;
    assert CalculateCommission(15000000, 400) == 600000;
    assert CalculateCommission(5000000, 600) == 300000;
    assert [t1, t2, t3] == [t1] + [t2] + [t3];
    GrossAppend([t1] + [t2], [t3], period);
    GrossAppend([t1], [t2], period);
    GrossOfOne(t1, period);
    GrossOfOne(t2, period);
    GrossOfOne(t3, period);
  }

  /** `generatePaymentForEmployee`: look up the employee, read their
      transactions, look up the period, sum the qualifying commissions, and
      when the sum is not zero insert a pending payment. Nothing but the
      payments table changes. */
  method GeneratePaymentForEmployee(db: Database, employeeId: int, payrollPeriodId: int, paymentMethod: PaymentMethod)
    returns (r: Result<Option<Payment>, Error>)
    requires db.Valid()
    modifies db`payments, db`nextPaymentId
    ensures db.Valid()
    ensures r == PlanPayment(
      Find(db.employees, employeeId), Find(db.periods, payrollPeriodId),
      TransactionsOf(db.transactions, employeeId), ActiveTaxSettings(db.taxSettings),
      employeeId, payrollPeriodId, paymentMethod)
    ensures r.Ok? && r.value.Some? ==>
      db.payments == old(db.payments) + [Row(old(db.nextPaymentId), r.value.value)] &&
      db.nextPaymentId == old(db.nextPaymentId) + 1
    ensures !(r.Ok? && r.value.Some?) ==>
      db.payments == old(db.payments) && db.nextPaymentId == old(db.nextPaymentId)
    ensures db.transactions == old(db.transactions)
  {
    var employee := Find(db.employees, employeeId);
    if employee.None? {
      return Err(EmployeeNotFound);
    }
    var transactions := TransactionsOf(db.transactions, employeeId);
    var period := Find(db.periods, payrollPeriodId);
    if period.None? {
      return Err(PayrollPeriodNotFound);
    }
    var grossAmount := GrossCommission(transactions, period.value);
    if grossAmount == 0 {
      return Ok(None);
    }
    var taxes := CalculateTaxWithholdings(ActiveTaxSettings(db.taxSettings), grossAmount);
    var netAmount := CalculateNetPay(ActiveTaxSettings(db.taxSettings), grossAmount);
    var payment := Payment(
      employeeId, Some(payrollPeriodId), grossAmount,
      taxes.federalTax, taxes.stateTax, taxes.localTax, taxes.socialSecurity, taxes.medicare,
      netAmount, paymentMethod, PaymentStatus.Pending, None);
    var _ := db.CreatePayment(payment);
    r := Ok(Some(payment));
  }

  // ---------------------------------------------------------------------
  // Payment lifecycle

  /** The payment marked processed at `now`; every other field is kept.
      There is no guard on the current status. */
  function ProcessedPayment(p: Payment, now: Timestamp): (q: Payment)
    ensures q.paymentStatus == PaymentStatus.Processed && q.paymentDate == Some(now)
    ensures q.(paymentStatus := p.paymentStatus, paymentDate := p.paymentDate) == p
  {
    p.(paymentStatus := PaymentStatus.Processed, paymentDate := Some(now))
  }

  /** Processing again only re-stamps the date. */
  lemma ReprocessingRestamps(p: Payment, first: Timestamp, second: Timestamp)
    ensures ProcessedPayment(ProcessedPayment(p, first), second) == ProcessedPayment(p, second)
  {
  }

  lemma ProcessingKeepsBalance(p: Payment, now: Timestamp)
    requires Balanced(p)
    ensures Balanced(ProcessedPayment(p, now))
  {
  }

  /** The payments table after marking every row with `paymentId` processed
      at `now`; the other rows are kept. */
  function ProcessedRows(rows: seq<Row<Payment>>, paymentId: int, now: Timestamp): (r: seq<Row<Payment>>)
    ensures |r| == |rows|
    ensures forall i :: 0 <= i < |rows| ==>
      r[i] == if rows[i].id == paymentId then Row(paymentId, ProcessedPayment(rows[i].val, now)) else rows[i]
  {
    Updated(rows, paymentId, p => ProcessedPayment(p, now))
  }

  /** `processPayment`: the payment is marked processed at `now` whatever
      its status; an unknown id changes nothing. */
  method ProcessPayment(db: Database, paymentId: int, now: Timestamp)
    requires db.Valid()
    modifies db`payments
    ensures db.Valid()
    ensures db.payments == ProcessedRows(old(db.payments), paymentId, now)
  {
    db.UpdatePayment(paymentId, PaymentPatch(Some(PaymentStatus.Processed), Some(now)));
    assert db.payments == ProcessedRows(old(db.payments), paymentId, now);
  }
}

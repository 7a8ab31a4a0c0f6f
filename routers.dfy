/** The admin mutations of the API router.  Each one refuses a caller who is
    not an admin, changing nothing, and otherwise builds the record or patch
    from its input and writes it. */
module Routers {
  import opened Wrappers
  import opened Schema
  import opened Db
  import opened Payroll

  /** `ctx.user?.role === "admin"`: an absent caller is not an admin. */
  predicate IsAdmin(caller: Option<User>) {
    caller.Some? && caller.value.role == AdminRole
  }

  /** JavaScript truthiness of an optional number: present and not 0. */
  predicate Truthy(x: Option<int>) {
    x.Some? && x.value != 0
  }

  // ---------------------------------------------------------------------
  // employees

  datatype NewEmployeeInput = NewEmployeeInput(
    firstName: string,
    lastName: string,
    email: string,
    phone: Option<string>,
    baseCommissionRate: Option<Rate>,
    hireDate: Option<Timestamp>)

  /** The employee `employees.create` stores: owned by the caller, at a base
      rate of 5 % unless one is given, and always active. */
  function NewEmployee(userId: int, input: NewEmployeeInput): (e: Employee)
    ensures e.userId == userId
    ensures input.baseCommissionRate.None? ==> e.baseCommissionRate == 500
    ensures input.baseCommissionRate.Some? ==> e.baseCommissionRate == input.baseCommissionRate.value
    ensures e.employmentStatus == Active
    ensures e.firstName == input.firstName && e.lastName == input.lastName && e.email == input.email
    ensures e.phone == input.phone && e.hireDate == input.hireDate
  {
    Employee(userId, input.firstName, input.lastName, input.email, input.phone,
             input.baseCommissionRate.GetOr(500), input.hireDate, Active)
  }

  method EmployeesCreate(db: Database, caller: Option<User>, input: NewEmployeeInput) returns (r: Result<int, Error>)
    requires db.Valid()
    modifies db`employees, db`nextEmployeeId
    ensures db.Valid()
    ensures !IsAdmin(caller) ==> r == Err(Unauthorized) && unchanged(db)
    ensures IsAdmin(caller) ==>
      r == Ok(old(db.nextEmployeeId)) &&
      db.nextEmployeeId == old(db.nextEmployeeId) + 1 &&
      db.employees == old(db.employees) + [Row(old(db.nextEmployeeId), NewEmployee(caller.value.id, input))]
  {
    if !IsAdmin(caller) {
      return Err(Unauthorized);
    }
    var id := db.CreateEmployee(NewEmployee(caller.value.id, input));
    r := Ok(id);
  }

  method EmployeesUpdate(db: Database, caller: Option<User>, id: int, patch: EmployeePatch) returns (r: Result<(), Error>)
    requires db.Valid()
    modifies db`employees
    ensures db.Valid()
    ensures !IsAdmin(caller) ==> r == Err(Unauthorized) && unchanged(db)
    ensures IsAdmin(caller) ==> r == Ok(()) && db.employees == PatchedEmployees(old(db.employees), id, patch)
  {
    if !IsAdmin(caller) {
      return Err(Unauthorized);
    }
    db.UpdateEmployee(id, patch);
    r := Ok(());
  }

  // ---------------------------------------------------------------------
  // transactions

  datatype NewTransactionInput = NewTransactionInput(
    employeeId: int,
    propertyAddress: string,
    propertyCity: Option<string>,
    propertyState: Option<string>,
    propertyZip: Option<string>,
    saleAmount: Cents,
    commissionRate: Rate,
    transactionDate: Timestamp)

  /** The stored commission agrees with the stored sale and rate. */
  predicate CommissionConsistent(t: Transaction) {
    t.commissionAmount == CalculateCommission(t.saleAmount, t.commissionRate)
  }

  /** The transaction `transactions.create` stores: the given fields, the
      commission computed from them, and the status pending. */
  function NewTransaction(input: NewTransactionInput): (t: Transaction)
    ensures CommissionConsistent(t)
    ensures t.status == TransactionStatus.Pending
    ensures t.employeeId == input.employeeId && t.saleAmount == input.saleAmount &&
            t.commissionRate == input.commissionRate && t.transactionDate == input.transactionDate
    ensures t.propertyAddress == input.propertyAddress && t.propertyCity == input.propertyCity &&
            t.propertyState == input.propertyState && t.propertyZip == input.propertyZip
  {
    Transaction(
      input.employeeId, input.propertyAddress, input.propertyCity, input.propertyState, input.propertyZip,
      input.saleAmount, input.commissionRate,
      CalculateCommission(input.saleAmount, input.commissionRate),
      input.transactionDate, TransactionStatus.Pending)
  }

  method TransactionsCreate(db: Database, caller: Option<User>, input: NewTransactionInput) returns (r: Result<int, Error>)
    requires db.Valid()
    modifies db`transactions, db`nextTransactionId
    ensures db.Valid()
    ensures !IsAdmin(caller) ==> r == Err(Unauthorized) && unchanged(db)
    ensures IsAdmin(caller) ==>
      r == Ok(old(db.nextTransactionId)) &&
      db.nextTransactionId == old(db.nextTransactionId) + 1 &&
      db.transactions == old(db.transactions) + [Row(old(db.nextTransactionId), NewTransaction(input))]
  {
    if !IsAdmin(caller) {
      return Err(Unauthorized);
    }
    var id := db.CreateTransaction(NewTransaction(input));
    r := Ok(id);
  }

  datatype TransactionUpdateInput = TransactionUpdateInput(
    id: int,
    status: Option<TransactionStatus>,
    saleAmount: Option<Cents>,
    commissionRate: Option<Rate>)

  /** The `updateData` of `transactions.update`: the given fields, and a
      recomputed commission only when both the sale amount and the rate are
      given and non-zero. */
  function TransactionUpdateData(input: TransactionUpdateInput): (p: TransactionPatch)
    ensures p.status == input.status && p.saleAmount == input.saleAmount &&
            p.commissionRate == input.commissionRate
    ensures p.commissionAmount.Some? <==> Truthy(input.saleAmount) && Truthy(input.commissionRate)
    ensures p.commissionAmount.Some? ==>
      p.commissionAmount.value == CalculateCommission(input.saleAmount.value, input.commissionRate.value)
  {
    var data := TransactionPatch(input.status, input.saleAmount, input.commissionRate, None);
    if Truthy(input.saleAmount) && Truthy(input.commissionRate) then
      data.(commissionAmount := Some(CalculateCommission(input.saleAmount.value, input.commissionRate.value)))
    else data
  }

  /** With both a non-zero sale amount and a non-zero rate the updated row's
      commission agrees with its new sale and rate. */
  lemma UpdateRecomputesCommission(t: Transaction, input: TransactionUpdateInput)
    requires Truthy(input.saleAmount) && Truthy(input.commissionRate)
    ensures CommissionConsistent(ApplyTransactionPatch(t, TransactionUpdateData(input)))
  {
  }

  /** Otherwise the stored commission is left as it was. */
  lemma UpdateKeepsCommission(t: Transaction, input: TransactionUpdateInput)
    requires !(Truthy(input.saleAmount) && Truthy(input.commissionRate))
    ensures ApplyTransactionPatch(t, TransactionUpdateData(input)).commissionAmount == t.commissionAmount
  {
  }

  /** Setting a sale amount to 0 is falsy, so the old, non-zero commission
      stays on a sale of 0. */
  lemma ZeroSaleKeepsStaleCommission(t: Transaction, id: int)
    requires t.commissionAmount != 0
    ensures var u := ApplyTransactionPatch(t, TransactionUpdateData(
              TransactionUpdateInput(id, None, Some(0), Some(t.commissionRate))));
            u.saleAmount == 0 && u.commissionAmount == t.commissionAmount && !CommissionConsistent(u)
  {
  }

  method TransactionsUpdate(db: Database, caller: Option<User>, input: TransactionUpdateInput) returns (r: Result<(), Error>)
    requires db.Valid()
    modifies db`transactions
    ensures db.Valid()
    ensures !IsAdmin(caller) ==> r == Err(Unauthorized) && unchanged(db)
    ensures IsAdmin(caller) ==>
      r == Ok(()) &&
      db.transactions == PatchedTransactions(old(db.transactions), input.id, TransactionUpdateData(input))
  {
    if !IsAdmin(caller) {
      return Err(Unauthorized);
    }
    var updateData := TransactionPatch(input.status, input.saleAmount, input.commissionRate, None);
    if Truthy(input.saleAmount) && Truthy(input.commissionRate) {
      updateData := updateData.(commissionAmount :=
        Some(CalculateCommission(input.saleAmount.value, input.commissionRate.value)));
    }
    db.UpdateTransaction(input.id, updateData);
    r := Ok(());
  }

  // ---------------------------------------------------------------------
  // payments and payroll

  method PaymentsProcess(db: Database, caller: Option<User>, paymentId: int, now: Timestamp) returns (r: Result<(), Error>)
    requires db.Valid()
    modifies db`payments
    ensures db.Valid()
    ensures !IsAdmin(caller) ==> r == Err(Unauthorized) && unchanged(db)
    ensures IsAdmin(caller) ==> r == Ok(()) && db.payments == ProcessedRows(old(db.payments), paymentId, now)
  {
    if !IsAdmin(caller) {
      return Err(Unauthorized);
    }
    ProcessPayment(db, paymentId, now);
    r := Ok(());
  }

  datatype GeneratePaymentInput = GeneratePaymentInput(
    employeeId: int,
    payrollPeriodId: int,
    paymentMethod: Option<PaymentMethod>)

  /** The payment method the router passes on: direct deposit unless one is
      given. */
  function ChosenMethod(input: GeneratePaymentInput): (m: PaymentMethod)
    ensures input.paymentMethod.None? ==> m == DirectDeposit
    ensures input.paymentMethod.Some? ==> m == input.paymentMethod.value
  {
    input.paymentMethod.GetOr(DirectDeposit)
  }

  method PayrollGeneratePayment(db: Database, caller: Option<User>, input: GeneratePaymentInput)
    returns (r: Result<Option<Payment>, Error>)
    requires db.Valid()
    modifies db`payments, db`nextPaymentId
    ensures db.Valid()
    ensures !IsAdmin(caller) ==> r == Err(Unauthorized) && unchanged(db)
    ensures IsAdmin(caller) ==> r == PlanPayment(
      Find(db.employees, input.employeeId), Find(db.periods, input.payrollPeriodId),
      TransactionsOf(db.transactions, input.employeeId), ActiveTaxSettings(db.taxSettings),
      input.employeeId, input.payrollPeriodId, ChosenMethod(input))
    ensures r.Ok? && r.value.Some? ==>
      db.payments == old(db.payments) + [Row(old(db.nextPaymentId), r.value.value)] &&
      db.nextPaymentId == old(db.nextPaymentId) + 1
    ensures !(r.Ok? && r.value.Some?) ==>
      db.payments == old(db.payments) && db.nextPaymentId == old(db.nextPaymentId)
  {
    if !IsAdmin(caller) {
      return Err(Unauthorized);
    }
    r := GeneratePaymentForEmployee(db, input.employeeId, input.payrollPeriodId, ChosenMethod(input));
  }

  // ---------------------------------------------------------------------
  // payroll periods

  datatype NewPeriodInput = NewPeriodInput(name: string, startDate: Timestamp, endDate: Timestamp)

  /** The period `payrollPeriods.create` stores: the given name and window,
      always open. */
  function NewPayrollPeriod(input: NewPeriodInput): (p: PayrollPeriod)
    ensures p.status == Open
    ensures p.name == input.name && p.startDate == input.startDate && p.endDate == input.endDate
  {
    PayrollPeriod(input.name, input.startDate, input.endDate, Open)
  }

  method PayrollPeriodsCreate(db: Database, caller: Option<User>, input: NewPeriodInput) returns (r: Result<int, Error>)
    requires db.Valid()
    modifies db`periods, db`nextPeriodId
    ensures db.Valid()
    ensures !IsAdmin(caller) ==> r == Err(Unauthorized) && unchanged(db)
    ensures IsAdmin(caller) ==>
      r == Ok(old(db.nextPeriodId)) &&
      db.nextPeriodId == old(db.nextPeriodId) + 1 &&
      db.periods == old(db.periods) + [Row(old(db.nextPeriodId), NewPayrollPeriod(input))]
  {
    if !IsAdmin(caller) {
      return Err(Unauthorized);
    }
    var id := db.CreatePayrollPeriod(NewPayrollPeriod(input));
    r := Ok(id);
  }

  method PayrollPeriodsUpdate(db: Database, caller: Option<User>, id: int, status: Option<PeriodStatus>)
    returns (r: Result<(), Error>)
    requires db.Valid()
    modifies db`periods
    ensures db.Valid()
    ensures !IsAdmin(caller) ==> r == Err(Unauthorized) && unchanged(db)
    ensures IsAdmin(caller) ==> r == Ok(()) && db.periods == PatchedPeriods(old(db.periods), id, PeriodPatch(status))
  {
    if !IsAdmin(caller) {
      return Err(Unauthorized);
    }
    db.UpdatePayrollPeriod(id, PeriodPatch(status));
    r := Ok(());
  }
}

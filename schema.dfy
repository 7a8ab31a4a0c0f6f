/** The records of the payroll database, reduced to the columns that the
    payroll pipeline and the admin mutations read or write.  Money is in
    cents, rates are percentages times 100 (500 is 5 %), and timestamps are
    integers. */
module Schema {
  import opened Wrappers

  type Cents = int
  type Rate = int
  type Timestamp = int

  /** One stored row: its auto-increment primary key and the record. */
  datatype Row<T> = Row(id: int, val: T)

  datatype Role = UserRole | AdminRole

  /** The signed-in caller, as the session layer supplies it. */
  datatype User = User(id: int, role: Role)

  datatype EmploymentStatus = Active | Inactive | Suspended

  datatype TransactionStatus = Pending | Completed | Cancelled

  datatype PaymentMethod = DirectDeposit | Check | WireTransfer

  datatype PaymentStatus = Pending | Processed | Failed | Cancelled

  datatype PeriodStatus = Open | Closed | Processed

  datatype Employee = Employee(
    userId: int,
    firstName: string,
    lastName: string,
    email: string,
    phone: Option<string>,
    baseCommissionRate: Rate,
    hireDate: Option<Timestamp>,
    employmentStatus: EmploymentStatus)

  /** A sale. `commissionAmount` is stored, not re-derived on read. */
  datatype Transaction = Transaction(
    employeeId: int,
    propertyAddress: string,
    propertyCity: Option<string>,
    propertyState: Option<string>,
    propertyZip: Option<string>,
    saleAmount: Cents,
    commissionRate: Rate,
    commissionAmount: Cents,
    transactionDate: Timestamp,
    status: TransactionStatus)

  /** Flat withholding rates; every rate but the federal one is nullable,
      and so is the `isActive` flag. */
  datatype TaxSetting = TaxSetting(
    name: string,
    federalTaxRate: Rate,
    stateTaxRate: Option<Rate>,
    localTaxRate: Option<Rate>,
    socialSecurityRate: Option<Rate>,
    medicareRate: Option<Rate>,
    isActive: Option<int>)

  datatype Payment = Payment(
    employeeId: int,
    payrollPeriodId: Option<int>,
    grossAmount: Cents,
    federalTax: Cents,
    stateTax: Cents,
    localTax: Cents,
    socialSecurity: Cents,
    medicare: Cents,
    netAmount: Cents,
    paymentMethod: PaymentMethod,
    paymentStatus: PaymentStatus,
    paymentDate: Option<Timestamp>)

  datatype PayrollPeriod = PayrollPeriod(
    name: string,
    startDate: Timestamp,
    endDate: Timestamp,
    status: PeriodStatus)

  /** The errors the mutations throw. */
  datatype Error = Unauthorized | EmployeeNotFound | PayrollPeriodNotFound

  /** Partial updates: a `None` field is left as it is, a `Some` field is
      written. */
  datatype EmployeePatch = EmployeePatch(
    firstName: Option<string>,
    lastName: Option<string>,
    email: Option<string>,
    phone: Option<string>,
    baseCommissionRate: Option<Rate>,
    employmentStatus: Option<EmploymentStatus>)

  datatype TransactionPatch = TransactionPatch(
    status: Option<TransactionStatus>,
    saleAmount: Option<Cents>,
    commissionRate: Option<Rate>,
    commissionAmount: Option<Cents>)

  datatype PaymentPatch = PaymentPatch(
    paymentStatus: Option<PaymentStatus>,
    paymentDate: Option<Timestamp>)

  datatype PeriodPatch = PeriodPatch(status: Option<PeriodStatus>)

  function ApplyEmployeePatch(e: Employee, p: EmployeePatch): Employee {
    e.(firstName := p.firstName.GetOr(e.firstName),
       lastName := p.lastName.GetOr(e.lastName),
       email := p.email.GetOr(e.email),
       phone := if p.phone.Some? then p.phone else e.phone,
       baseCommissionRate := p.baseCommissionRate.GetOr(e.baseCommissionRate),
       employmentStatus := p.employmentStatus.GetOr(e.employmentStatus))
  }

  function ApplyTransactionPatch(t: Transaction, p: TransactionPatch): Transaction {
    t.(status := p.status.GetOr(t.status),
       saleAmount := p.saleAmount.GetOr(t.saleAmount),
       commissionRate := p.commissionRate.GetOr(t.commissionRate),
       commissionAmount := p.commissionAmount.GetOr(t.commissionAmount))
  }

  function ApplyPaymentPatch(q: Payment, p: PaymentPatch): Payment {
    q.(paymentStatus := p.paymentStatus.GetOr(q.paymentStatus),
       paymentDate := if p.paymentDate.Some? then p.paymentDate else q.paymentDate)
  }

  function ApplyPeriodPatch(r: PayrollPeriod, p: PeriodPatch): PayrollPeriod {
    r.(status := p.status.GetOr(r.status))
  }
}

/** The persistence layer as in-memory tables.  Every table is a sequence of
    rows keyed by an auto-increment id; a read by id returns the first row
    with that id, an update writes every row with that id (none, if there is
    none), and an insert appends a row with the next id. */
module Db {
  import opened Wrappers
  import opened Schema

  /** The primary-key invariant: ids are positive, below the next id to be
      handed out, and pairwise distinct. */
  ghost predicate KeyedBelow<T>(rows: seq<Row<T>>, next: int) {
    1 <= next &&
    (forall i :: 0 <= i < |rows| ==> 1 <= rows[i].id < next) &&
    (forall i, j :: 0 <= i < j < |rows| ==> rows[i].id != rows[j].id)
  }

  /** `select ... where id = ? limit 1`. */
  function Find<T>(rows: seq<Row<T>>, id: int): (r: Option<T>)
    ensures r.Some? <==> exists i :: 0 <= i < |rows| && rows[i].id == id
    ensures r.Some? ==> Row(id, r.value) in rows
  {
    if rows == [] then None
    else if rows[0].id == id then Some(rows[0].val)
    else
      var r := Find(rows[1..], id);
      assert forall i :: 1 <= i < |rows| ==> rows[i] == rows[1..][i - 1];
      r
  }

  /** Under the primary-key invariant a read by id finds exactly the row
      that carries that id; this follows from the contract of `Find`. */
  lemma FindKeyed<T>(rows: seq<Row<T>>, next: int, i: int)
    requires KeyedBelow(rows, next) && 0 <= i < |rows|
    ensures Find(rows, rows[i].id) == Some(rows[i].val)
  {
  }

  /** `update ... set ... where id = ?`: `f` is applied to every row with
      that id and every other row is kept. */
  function Updated<T>(rows: seq<Row<T>>, id: int, f: T -> T): (r: seq<Row<T>>)
    ensures |r| == |rows|
    ensures forall i :: 0 <= i < |rows| ==>
      r[i] == if rows[i].id == id then Row(id, f(rows[i].val)) else rows[i]
  {
    seq(|rows|, i requires 0 <= i < |rows| =>
      if rows[i].id == id then Row(id, f(rows[i].val)) else rows[i])
  }

  function PatchedEmployees(rows: seq<Row<Employee>>, id: int, patch: EmployeePatch): seq<Row<Employee>> {
    Updated(rows, id, e => ApplyEmployeePatch(e, patch))
  }

  function PatchedTransactions(rows: seq<Row<Transaction>>, id: int, patch: TransactionPatch): seq<Row<Transaction>> {
    Updated(rows, id, t => ApplyTransactionPatch(t, patch))
  }

  function PatchedPayments(rows: seq<Row<Payment>>, id: int, patch: PaymentPatch): seq<Row<Payment>> {
    Updated(rows, id, q => ApplyPaymentPatch(q, patch))
  }

  function PatchedPeriods(rows: seq<Row<PayrollPeriod>>, id: int, patch: PeriodPatch): seq<Row<PayrollPeriod>> {
    Updated(rows, id, r => ApplyPeriodPatch(r, patch))
  }

  /** The transactions of one employee, in table order; an `employeeId` of
      0 is falsy and selects every transaction (server/db.ts). */
  function TransactionsOf(rows: seq<Row<Transaction>>, employeeId: int): (r: seq<Transaction>)
    ensures |r| <= |rows|
    ensures forall t :: t in r ==> employeeId == 0 || t.employeeId == employeeId
    ensures forall i :: (0 <= i < |rows| && (employeeId == 0 || rows[i].val.employeeId == employeeId)
      ==> rows[i].val in r)
    ensures employeeId == 0 ==> |r| == |rows|
    ensures forall t :: t in r ==> exists i :: 0 <= i < |rows| && rows[i].val == t
  {
    if rows == [] then []
    else
      var rest := TransactionsOf(rows[1..], employeeId);
      assert forall i :: 1 <= i < |rows| ==> rows[i] == rows[1..][i - 1];
      if employeeId == 0 || rows[0].val.employeeId == employeeId then [rows[0].val] + rest
      else rest
  }

  /** Selecting from a concatenation selects from each part, in order, so
      every matching row is returned once per occurrence. */
  lemma {:induction false} TransactionsOfAppend(a: seq<Row<Transaction>>, b: seq<Row<Transaction>>, employeeId: int)
    ensures TransactionsOf(a + b, employeeId) == TransactionsOf(a, employeeId) + TransactionsOf(b, employeeId)
  {
    if a == [] {
      assert a + b == b;
    } else {
      assert (a + b)[0] == a[0] && (a + b)[1..] == a[1..] + b;
      TransactionsOfAppend(a[1..], b, employeeId);
    }
  }

  /** A single row is returned exactly when it matches. */
  lemma TransactionsOfOne(row: Row<Transaction>, employeeId: int)
    ensures TransactionsOf([row], employeeId) ==
      if employeeId == 0 || row.val.employeeId == employeeId then [row.val] else []
  {
    assert [row][1..] == [];
  }

  /** `select ... from taxSettings where isActive = 1`, in table order; a
      null flag does not equal 1. */
  function ActiveTaxSettings(rows: seq<Row<TaxSetting>>): (r: seq<TaxSetting>)
    ensures forall s :: s in r ==> s.isActive == Some(1)
    ensures forall i :: 0 <= i < |rows| && rows[i].val.isActive == Some(1) ==> rows[i].val in r
    ensures forall s :: s in r ==> exists i :: 0 <= i < |rows| && rows[i].val == s
  {
    if rows == [] then []
    else
      var rest := ActiveTaxSettings(rows[1..]);
      assert forall i :: 1 <= i < |rows| ==> rows[i] == rows[1..][i - 1];
      if rows[0].val.isActive == Some(1) then [rows[0].val] + rest else rest
  }

  /** With no active row nothing is selected, so the default rates apply. */
  lemma {:induction false} NoActiveSettings(rows: seq<Row<TaxSetting>>)
    requires forall i :: 0 <= i < |rows| ==> rows[i].val.isActive != Some(1)
    ensures ActiveTaxSettings(rows) == []
  {
    if rows != [] {
      assert forall i :: 0 <= i < |rows[1..]| ==> rows[1..][i] == rows[i + 1];
      NoActiveSettings(rows[1..]);
    }
  }

  /** The first active setting is the one in the first active row. */
  lemma {:induction false} FirstActiveSetting(rows: seq<Row<TaxSetting>>, i: int)
    requires 0 <= i < |rows| && rows[i].val.isActive == Some(1)
    requires forall j :: 0 <= j < i ==> rows[j].val.isActive != Some(1)
    ensures ActiveTaxSettings(rows) != [] && ActiveTaxSettings(rows)[0] == rows[i].val
  {
    if i > 0 {
      assert rows[1..][i - 1] == rows[i];
      FirstActiveSetting(rows[1..], i - 1);
    }
  }

  /** The database: the tables the payroll pipeline and the admin mutations
      touch.  Tax settings are read, never written, here. */
  class Database {
    var employees: seq<Row<Employee>>
    var transactions: seq<Row<Transaction>>
    var payments: seq<Row<Payment>>
    var periods: seq<Row<PayrollPeriod>>
    var taxSettings: seq<Row<TaxSetting>>
    var nextEmployeeId: int
    var nextTransactionId: int
    var nextPaymentId: int
    var nextPeriodId: int

    ghost predicate Valid()
      reads this
    {
      KeyedBelow(employees, nextEmployeeId) &&
      KeyedBelow(transactions, nextTransactionId) &&
      KeyedBelow(payments, nextPaymentId) &&
      KeyedBelow(periods, nextPeriodId)
    }

    /** Empty tables whose ids start at 1, beside the given tax settings. */
    constructor (taxSettings: seq<Row<TaxSetting>>)
      ensures Valid()
      ensures employees == [] && transactions == [] && payments == [] && periods == []
      ensures this.taxSettings == taxSettings
    {
      employees, transactions, payments, periods := [], [], [], [];
      this.taxSettings := taxSettings;
      nextEmployeeId, nextTransactionId, nextPaymentId, nextPeriodId := 1, 1, 1, 1;
    }

    method CreateEmployee(e: Employee) returns (id: int)
      requires Valid()
      modifies this`employees, this`nextEmployeeId
      ensures Valid()
      ensures id == old(nextEmployeeId) && nextEmployeeId == id + 1
      ensures employees == old(employees) + [Row(id, e)]
    {
      id := nextEmployeeId;
      employees := employees + [Row(id, e)];
      nextEmployeeId := id + 1;
    }

    method UpdateEmployee(id: int, patch: EmployeePatch)
      requires Valid()
      modifies this`employees
      ensures Valid()
      ensures employees == PatchedEmployees(old(employees), id, patch)
    {
      employees := PatchedEmployees(employees, id, patch);
    }

    method CreateTransaction(t: Transaction) returns (id: int)
      requires Valid()
      modifies this`transactions, this`nextTransactionId
      ensures Valid()
      ensures id == old(nextTransactionId) && nextTransactionId == id + 1
      ensures transactions == old(transactions) + [Row(id, t)]
    {
      id := nextTransactionId;
      transactions := transactions + [Row(id, t)];
      nextTransactionId := id + 1;
    }

    method UpdateTransaction(id: int, patch: TransactionPatch)
      requires Valid()
      modifies this`transactions
      ensures Valid()
      ensures transactions == PatchedTransactions(old(transactions), id, patch)
    {
      transactions := PatchedTransactions(transactions, id, patch);
    }

    method CreatePayment(p: Payment) returns (id: int)
      requires Valid()
      modifies this`payments, this`nextPaymentId
      ensures Valid()
      ensures id == old(nextPaymentId) && nextPaymentId == id + 1
      ensures payments == old(payments) + [Row(id, p)]
    {
      id := nextPaymentId;
      payments := payments + [Row(id, p)];
      nextPaymentId := id + 1;
    }

    method UpdatePayment(id: int, patch: PaymentPatch)
      requires Valid()
      modifies this`payments
      ensures Valid()
      ensures payments == PatchedPayments(old(payments), id, patch)
    {
      payments := PatchedPayments(payments, id, patch);
    }

    method CreatePayrollPeriod(r: PayrollPeriod) returns (id: int)
      requires Valid()
      modifies this`periods, this`nextPeriodId
      ensures Valid()
      ensures id == old(nextPeriodId) && nextPeriodId == id + 1
      ensures periods == old(periods) + [Row(id, r)]
    {
      id := nextPeriodId;
      periods := periods + [Row(id, r)];
      nextPeriodId := id + 1;
    }

    method UpdatePayrollPeriod(id: int, patch: PeriodPatch)
      requires Valid()
      modifies this`periods
      ensures Valid()
      ensures periods == PatchedPeriods(old(periods), id, patch)
    {
      periods := PatchedPeriods(periods, id, patch);
    }
  }
}

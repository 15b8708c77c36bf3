/** The records of the application (users, products, ledger entries) and the
    few facts about them that several screens share. JavaScript numbers are
    exact reals here; timestamps are whole milliseconds. */
module Types {
  import opened Base

  datatype Role = Owner | Manager | SalesPerson

  datatype Status = Pending | Approved | Rejected

  datatype PaymentMethod = Cash | MtnMomo | AirtelMoney

  datatype TransactionType = Sale | Expense

  datatype Tier = Free | Paid

  /** An account. The password is optional because the session copy is
      stored without it. */
  datatype User = User(
    uid: string,
    fullName: string,
    phoneNumber: string,
    email: string,
    password: Option<string>,
    businessName: string,
    role: Role,
    tier: Tier,
    status: Status)

  datatype Product = Product(
    id: string,
    businessName: string,
    name: string,
    buyPrice: real,
    sellPrice: real,
    stockCount: real,
    minStock: real,
    category: Option<string>)

  datatype Transaction = Transaction(
    id: string,
    businessName: string,
    txType: TransactionType,
    amount: real,
    quantity: Option<real>,
    payMethod: PaymentMethod,
    itemId: Option<string>,
    itemName: Option<string>,
    timestamp: int,
    note: Option<string>,
    recordedBy: string)

  /** JavaScript truthiness of an optional string: set and not empty. */
  predicate Present(o: Option<string>)
  {
    o.Some? && o.value != ""
  }

  /** `quantity || 1`: an absent or zero quantity counts as one. */
  function QuantityOrOne(q: Option<real>): (n: real)
    ensures n != 0.0
    ensures q.Some? && q.value != 0.0 ==> n == q.value
    ensures q.None? || q.value == 0.0 ==> n == 1.0
  {
    if q.Some? && q.value != 0.0 then q.value else 1.0
  }

  /** Owners and managers see profit figures and may edit the catalog. */
  predicate IsManagement(role: Role)
  {
    role == Owner || role == Manager
  }

  predicate IsSale(t: Transaction)
  {
    t.txType == Sale
  }

  predicate IsExpense(t: Transaction)
  {
    t.txType == Expense
  }

  /** `reduce((sum, t) => sum + t.amount, 0)`. */
  function AmountSum(ts: seq<Transaction>): (r: real)
    ensures (forall i :: 0 <= i < |ts| ==> ts[i].amount >= 0.0) ==> r >= 0.0
  {
    if ts == [] then 0.0 else ts[0].amount + AmountSum(ts[1..])
  }

  lemma {:induction false} AmountSumAppend(a: seq<Transaction>, b: seq<Transaction>)
    ensures AmountSum(a + b) == AmountSum(a) + AmountSum(b)
  {
    if a == [] {
      assert a + b == b;
    } else {
      assert (a + b)[1..] == a[1..] + b;
      AmountSumAppend(a[1..], b);
    }
  }

  /** One step of a filtered sum: the head counts when it is kept. */
  lemma FilteredSumStep(ts: seq<Transaction>, keep: Transaction -> bool)
    requires ts != []
    ensures AmountSum(Filter(ts, keep))
         == (if keep(ts[0]) then ts[0].amount else 0.0) + AmountSum(Filter(ts[1..], keep))
  {
    var head: seq<Transaction> := if keep(ts[0]) then [ts[0]] else [];
    AmountSumAppend(head, Filter(ts[1..], keep));
  }

  /** Sum of the amounts of the sales in `ts`. */
  function SalesTotal(ts: seq<Transaction>): real
  {
    AmountSum(Filter(ts, IsSale))
  }

  /** Sum of the amounts of the expenses in `ts`. */
  function ExpenseTotal(ts: seq<Transaction>): real
  {
    AmountSum(Filter(ts, IsExpense))
  }

  /** Every entry is a sale or an expense, so the two totals together
      account for the whole amount of `ts`. */
  lemma {:induction false} TotalsPartitionAmounts(ts: seq<Transaction>)
    ensures SalesTotal(ts) + ExpenseTotal(ts) == AmountSum(ts)
  {
    if ts != [] {
      FilteredSumStep(ts, IsSale);
      FilteredSumStep(ts, IsExpense);
      TotalsPartitionAmounts(ts[1..]);
    }
  }

  /** Amounts recorded through the entry form are positive, so both totals
      are non-negative on such a ledger. */
  lemma {:induction false} TotalsNonNegative(ts: seq<Transaction>)
    requires forall i :: 0 <= i < |ts| ==> ts[i].amount > 0.0
    ensures SalesTotal(ts) >= 0.0 && ExpenseTotal(ts) >= 0.0
  {
    if ts != [] {
      FilteredSumStep(ts, IsSale);
      FilteredSumStep(ts, IsExpense);
      TotalsNonNegative(ts[1..]);
    }
  }
}

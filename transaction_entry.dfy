/** The "Record Money" form: its state, the handlers that change it, and the
    entry it builds on submit. The effect that recomputes the amount from
    the selected product and the quantity runs inside the two handlers that
    change either of them. */
module TransactionEntry {
  import opened Base
  import opened Types
  import opened MockDb

  /** The product an id selects: the first catalog entry with that id. */
  function Selected(products: seq<Product>, id: string): (r: Option<Product>)
    ensures r.Some? ==> r.value in products && r.value.id == id
    ensures r.None? <==> forall i :: 0 <= i < |products| ==> products[i].id != id
  {
    Find(products, ProductIdIs(id))
  }

  /** The amount after the auto-amount effect: the selected product's price
      times the quantity when an id is selected and found; otherwise the
      amount field keeps what it had. */
  function AutoAmount(products: seq<Product>, id: string, quantity: int, current: Option<real>)
    : (r: Option<real>)
    ensures id == "" || Selected(products, id).None? ==> r == current
    ensures id != "" && Selected(products, id).Some? ==>
      r.Some? && r.value == Selected(products, id).value.sellPrice * quantity as real
  {
    var selected := Selected(products, id);
    if id != "" && selected.Some? then Some(selected.value.sellPrice * quantity as real) else current
  }

  /** `Math.max(1, parseInt(v) || 1)`, with `None` for input that does not
      parse: never below one, and any whole number from one up is kept. */
  function ClampQuantity(input: Option<int>): (q: int)
    ensures q >= 1
    ensures input.Some? && input.value >= 1 ==> q == input.value
    ensures input.None? || input.value < 1 ==> q == 1
  {
    var parsed := if input.Some? && input.value != 0 then input.value else 1;
    if parsed > 1 then parsed else 1
  }

  /** The entry `handleSubmit` hands over, or `None` when the amount is empty
      or not positive. The id and the time stand for `Date.now()`. */
  function BuildTransaction(user: User, products: seq<Product>, txType: TransactionType,
                            amount: Option<real>, quantity: int, payMethod: PaymentMethod,
                            selectedId: string, note: string, id: string, now: int)
    : (r: Option<Transaction>)
    ensures r.None? <==> amount.None? || amount.value <= 0.0
    ensures r.Some? ==>
      var tx := r.value;
      && tx.amount == amount.value && tx.amount > 0.0
      && tx.txType == txType && tx.payMethod == payMethod
      && tx.businessName == user.businessName && tx.recordedBy == user.uid
      && tx.id == id && tx.timestamp == now && tx.note == Some(note)
      && tx.quantity == Some(if txType == Sale && selectedId != "" then quantity as real else 1.0)
      && (selectedId == "" <==> tx.itemId.None?)
      && (selectedId != "" ==> tx.itemId == Some(selectedId))
      && tx.itemName == Some(
           if Selected(products, selectedId).Some? && Selected(products, selectedId).value.name != ""
           then Selected(products, selectedId).value.name
           else if txType == Sale then "Sale" else "Expense")
  {
    if amount.None? || amount.value <= 0.0 then None
    else
      var selected := Selected(products, selectedId);
      var defaultName := if txType == Sale then "Sale" else "Expense";
      Some(Transaction(
        id,
        user.businessName,
        txType,
        amount.value,
        Some(if txType == Sale && selectedId != "" then quantity as real else 1.0),
        payMethod,
        if selectedId != "" then Some(selectedId) else None,
        Some(if selected.Some? && selected.value.name != "" then selected.value.name else defaultName),
        now,
        Some(note),
        user.uid))
  }

  class EntryForm {
    const user: User
    const products: seq<Product>
    var txType: TransactionType
    var amount: Option<real>
    var quantity: int
    var payMethod: PaymentMethod
    var selectedProductId: string
    var note: string

    /** The quantity is at least one, a product is only selected on a
        sale, and a selected product that is in the catalog has set the
        amount to its price times the quantity. */
    ghost predicate Valid()
      reads this
    {
      && quantity >= 1
      && (selectedProductId != "" ==> txType == Sale)
      && (selectedProductId != "" && Selected(products, selectedProductId).Some? ==>
            amount.Some? && amount.value == Selected(products, selectedProductId).value.sellPrice * quantity as real)
    }

    constructor (user: User, products: seq<Product>)
      ensures Valid()
      ensures this.user == user && this.products == products
      ensures txType == Sale && amount == None && quantity == 1 && payMethod == Cash
      ensures selectedProductId == "" && note == ""
    {
      this.user := user;
      this.products := products;
      txType, amount, quantity, payMethod := Sale, None, 1, Cash;
      selectedProductId, note := "", "";
    }

    /** `handleProductSelect`: the quantity goes back to one and the amount
        follows the new product. Only offered on a sale, with a catalog id or
        the manual-entry choice. */
    method SelectProduct(id: string)
      requires Valid()
      requires txType == Sale
      requires id == "" || exists i :: 0 <= i < |products| && products[i].id == id
      modifies this
      ensures Valid()
      ensures selectedProductId == id && quantity == 1
      ensures amount == AutoAmount(products, id, 1, old(amount))
      ensures txType == old(txType) && payMethod == old(payMethod) && note == old(note)
    {
      selectedProductId := id;
      quantity := 1;
      amount := AutoAmount(products, selectedProductId, quantity, amount);
    }

    /** The quantity field, shown only on a sale with a product selected. */
    method SetQuantity(input: Option<int>)
      requires Valid()
      requires txType == Sale && selectedProductId != ""
      modifies this
      ensures Valid()
      ensures quantity == ClampQuantity(input)
      ensures amount == AutoAmount(products, selectedProductId, quantity, old(amount))
      ensures txType == old(txType) && payMethod == old(payMethod)
      ensures selectedProductId == old(selectedProductId) && note == old(note)
    {
      quantity := ClampQuantity(input);
      amount := AutoAmount(products, selectedProductId, quantity, amount);
    }

    /** Typing an amount; the field is read-only while a product is selected. */
    method SetAmount(a: Option<real>)
      requires Valid()
      requires selectedProductId == ""
      modifies this`amount
      ensures Valid()
      ensures amount == a
    {
      amount := a;
    }

    /** The Sale / Expense toggles: both clear the product and the amount,
        and leave the quantity as it was. */
    method SetType(t: TransactionType)
      requires Valid()
      modifies this
      ensures Valid()
      ensures txType == t && selectedProductId == "" && amount == None
      ensures quantity == old(quantity) && payMethod == old(payMethod) && note == old(note)
    {
      txType := t;
      selectedProductId := "";
      amount := None;
    }

    method SetMethod(m: PaymentMethod)
      requires Valid()
      modifies this`payMethod
      ensures Valid()
      ensures payMethod == m
    {
      payMethod := m;
    }

    method SetNote(n: string)
      requires Valid()
      modifies this`note
      ensures Valid()
      ensures note == n
    {
      note := n;
    }

    /** `handleSubmit`: the entry built from the current fields. With a
        catalog product selected the entry is a sale of that product, for
        its price times the quantity, and it exists exactly when that total
        is positive. */
    method Submit(id: string, now: int) returns (tx: Option<Transaction>)
      requires Valid()
      ensures tx == BuildTransaction(user, products, txType, amount, quantity, payMethod,
                                     selectedProductId, note, id, now)
      ensures selectedProductId != "" && Selected(products, selectedProductId).Some? ==>
        var p := Selected(products, selectedProductId).value;
        && (tx.Some? <==> p.sellPrice * quantity as real > 0.0)
        && (tx.Some? ==> tx.value.txType == Sale && tx.value.itemId == Some(p.id)
                         && tx.value.amount == p.sellPrice * quantity as real
                         && tx.value.quantity == Some(quantity as real))
    {
      tx := BuildTransaction(user, products, txType, amount, quantity, payMethod,
                             selectedProductId, note, id, now);
    }
  }

  /** A sale recorded with a catalog product selected lowers the stock of
      that product, and of no other, by exactly the chosen quantity. */
  lemma SubmittedSaleLowersStock(user: User, products: seq<Product>, amount: Option<real>,
                                 quantity: int, payMethod: PaymentMethod, i: nat,
                                 note: string, id: string, now: int)
    requires quantity >= 1
    requires i < |products| && products[i].id != ""
    requires forall j :: 0 <= j < i ==> products[j].id != products[i].id
    requires BuildTransaction(user, products, Sale, amount, quantity, payMethod,
                              products[i].id, note, id, now).Some?
    ensures var tx := BuildTransaction(user, products, Sale, amount, quantity, payMethod,
                                       products[i].id, note, id, now).value;
            && ApplySale(products, tx)[i].stockCount == products[i].stockCount - quantity as real
            && forall j :: 0 <= j < |products| && j != i ==> ApplySale(products, tx)[j] == products[j]
  {
    var tx := BuildTransaction(user, products, Sale, amount, quantity, payMethod,
                               products[i].id, note, id, now).value;
    assert SaleTarget(products, tx) == Some(i);
  }
}

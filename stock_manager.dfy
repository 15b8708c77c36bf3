/** The stock screen: who may edit the catalog, the add / edit form and the
    product its submit builds. */
module StockManager {
  import opened Base
  import opened Types

  /** `canEdit`: owners and managers only. */
  function CanEdit(role: Role): (r: bool)
    ensures r <==> role == Owner || role == Manager
    ensures r == IsManagement(role)
  {
    role == Owner || role == Manager
  }

  /** The fields of the product form. */
  datatype Draft = Draft(name: string, buyPrice: real, sellPrice: real, stockCount: real, minStock: real)

  /** What `resetForm` puts back. */
  const EmptyDraft: Draft := Draft("", 0.0, 0.0, 0.0, 5.0)

  /** The form filled from an existing product by `startEdit`. */
  function DraftOf(p: Product): (d: Draft)
    ensures d.name == p.name && d.buyPrice == p.buyPrice && d.sellPrice == p.sellPrice
    ensures d.stockCount == p.stockCount && d.minStock == p.minStock
  {
    Draft(p.name, p.buyPrice, p.sellPrice, p.stockCount, p.minStock)
  }

  /** The red "selling below cost" hint. */
  predicate BelowCost(d: Draft)
  {
    d.sellPrice < d.buyPrice
  }

  /** The product `handleSubmit` passes on, or `None` when the name is
      empty or either price is zero. The id is the one being edited, or a
      fresh one; the business is always the current user's. The category is
      not carried over. */
  function BuildProduct(user: User, d: Draft, editingId: Option<string>, freshId: string)
    : (r: Option<Product>)
    ensures r.None? <==> d.name == "" || d.buyPrice == 0.0 || d.sellPrice == 0.0
    ensures r.Some? ==>
      && r.value.id == (if Present(editingId) then editingId.value else freshId)
      && r.value.businessName == user.businessName
      && DraftOf(r.value) == d
      && r.value.category == None
  {
    if d.name == "" || d.buyPrice == 0.0 || d.sellPrice == 0.0 then None
    else Some(Product(if Present(editingId) then editingId.value else freshId,
                      user.businessName, d.name, d.buyPrice, d.sellPrice, d.stockCount, d.minStock, None))
  }

  /** Selling below cost only warns: a draft with a name and non-zero prices
      is submitted whatever the margin. */
  lemma BelowCostNeverBlocks(user: User, d: Draft, editingId: Option<string>, freshId: string)
    requires d.name != "" && d.buyPrice > 0.0 && d.sellPrice > 0.0
    ensures BuildProduct(user, d, editingId, freshId).Some?
    ensures BuildProduct(user, d.(sellPrice := d.buyPrice / 2.0), editingId, freshId).Some?
    ensures BelowCost(d.(sellPrice := d.buyPrice / 2.0))
  {
  }

  /** Editing a product and saving it unchanged gives back the same product,
      except that its category is cleared and its business is set to the
      editor's. */
  lemma EditRoundTrip(user: User, p: Product, freshId: string)
    requires p.name != "" && p.buyPrice != 0.0 && p.sellPrice != 0.0 && p.id != ""
    ensures BuildProduct(user, DraftOf(p), Some(p.id), freshId)
         == Some(p.(businessName := user.businessName, category := None))
  {
  }

  class StockForm {
    const user: User
    var editingId: Option<string>
    var isAdding: bool
    var formData: Draft

    /** Only `resetForm` closes the form, so a closed form is empty. */
    ghost predicate Valid()
      reads this
    {
      !isAdding ==> formData == EmptyDraft && editingId == None
    }

    constructor (user: User)
      ensures Valid()
      ensures this.user == user
      ensures editingId == None && !isAdding && formData == EmptyDraft
    {
      this.user := user;
      editingId, isAdding, formData := None, false, EmptyDraft;
    }

    /** `resetForm`: default fields, nothing being edited, the form closed. */
    method ResetForm()
      modifies this
      ensures Valid()
      ensures formData == EmptyDraft && editingId == None && !isAdding
    {
      formData := EmptyDraft;
      editingId := None;
      isAdding := false;
    }

    /** The "Add Item" button, shown to editors while the form is closed. */
    method OpenAdd()
      requires Valid() && CanEdit(user.role) && !isAdding
      modifies this`isAdding
      ensures Valid()
      ensures isAdding && formData == EmptyDraft && editingId == None
    {
      isAdding := true;
    }

    /** `startEdit(p)`: the form opens on a copy of `p`. */
    method StartEdit(p: Product)
      requires CanEdit(user.role)
      modifies this
      ensures Valid()
      ensures editingId == Some(p.id) && formData == DraftOf(p) && isAdding
    {
      editingId := Some(p.id);
      formData := DraftOf(p);
      isAdding := true;
    }

    /** Typing into the form's fields. */
    method SetDraft(d: Draft)
      requires Valid() && CanEdit(user.role) && isAdding
      modifies this`formData
      ensures Valid()
      ensures formData == d
    {
      formData := d;
    }

    /** `handleSubmit`: the built product, if any, after which the form is
        reset; a refused draft leaves the form as it was. */
    method HandleSubmit(freshId: string) returns (p: Option<Product>)
      requires Valid() && CanEdit(user.role) && isAdding
      modifies this
      ensures Valid()
      ensures p == BuildProduct(user, old(formData), old(editingId), freshId)
      ensures p.Some? ==> formData == EmptyDraft && editingId == None && !isAdding
      ensures p.None? ==> formData == old(formData) && editingId == old(editingId) && isAdding
    {
      p := BuildProduct(user, formData, editingId, freshId);
      if p.Some? {
        ResetForm();
      }
    }
  }
}

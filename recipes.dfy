/**
 * The recipes page (`RecipesPage`): supplier-scoped recipe list, accordion, and the modal that
 * creates one line, edits one line's quantity, or manages (bulk-replaces) a product's lines.
 */
module Recipes {
  import opened Common
  import opened Seqs
  import opened FormValues
  import opened Flags
  import opened Catalog

  /** The group's product resolves, by the first product with its id, to a product of `supplierId`. */
  function OwnedBy(products: seq<Product>, productId: string, supplierId: string): (owned: bool)
    ensures owned <==> exists i :: 0 <= i < |products| && products[i].id == productId &&
                                   products[i].supplierId == supplierId &&
                                   forall j :: 0 <= j < i ==> products[j].id != productId
  {
    match FindProduct(products, productId)
    case Some(p) => p.supplierId == supplierId
    case None => false
  }

  /** `filteredRecipes`: nothing until a supplier is chosen, then the groups of its products. */
  function FilteredRecipes(recipes: seq<RecipeGroup>, products: seq<Product>, selected: string)
    : (r: seq<RecipeGroup>)
    ensures selected == "" ==> r == []
    ensures forall g :: g in r <==>
              selected != "" && g in recipes && OwnedBy(products, g.productId, selected)
    ensures Subseq(r, recipes)
  {
    if selected == "" then []
    else Filter((g: RecipeGroup) => OwnedBy(products, g.productId, selected), recipes)
  }

  /** Filtering the filtered list again by the same supplier changes nothing. */
  lemma FilteredRecipesIdempotent(recipes: seq<RecipeGroup>, products: seq<Product>, selected: string)
    ensures FilteredRecipes(FilteredRecipes(recipes, products, selected), products, selected)
            == FilteredRecipes(recipes, products, selected)
  {
    if selected != "" {
      FilterIdempotent((g: RecipeGroup) => OwnedBy(products, g.productId, selected), recipes);
    }
  }

  // ----- Manage modal rows and the bulk-replace payload -----

  /** One row of the manage modal (its React key `temp_id` is not modelled). */
  datatype EditRow = EditRow(supplierProductId: string, quantity: NumField)

  /** `handleManageChange(index, field, value)`: the two fields a row's inputs write. */
  datatype RowEdit = SetSupplierProduct(id: string) | SetQuantity(value: NumField)

  function ApplyEdit(row: EditRow, edit: RowEdit): (r: EditRow)
    ensures edit.SetSupplierProduct? ==> r.supplierProductId == edit.id && r.quantity == row.quantity
    ensures edit.SetQuantity? ==> r.quantity == edit.value && r.supplierProductId == row.supplierProductId
  {
    match edit
    case SetSupplierProduct(id) => row.(supplierProductId := id)
    case SetQuantity(q) => row.(quantity := q)
  }

  /** The row `handleAddItemRow` appends. */
  const BlankRow := EditRow("", Held(1))

  /** `handleOpenManage` copies each recipe line into a row. */
  function RowsOf(items: seq<RecipeItem>): (rows: seq<EditRow>)
    ensures |rows| == |items|
    ensures forall i :: 0 <= i < |items| ==>
              rows[i] == EditRow(items[i].supplierProductId, Held(items[i].quantity))
  {
    seq(|items|, i requires 0 <= i < |items| => EditRow(items[i].supplierProductId, Held(items[i].quantity)))
  }

  /** One line of the bulk-replace payload. */
  datatype BulkItem = BulkItem(supplierProductId: string, quantity: int)

  datatype BulkReplacePayload = BulkReplacePayload(productId: string, items: seq<BulkItem>)

  /**
   * `item.supplier_product_id && item.quantity > 0`: a row is kept exactly when what it would
   * submit is a submittable line; a loaded quantity is compared as it is.
   */
  function ValidRow(row: EditRow): (valid: bool)
    ensures valid <==> Submittable(RowView(row))
    ensures row.quantity.Held? ==> (valid <==> row.supplierProductId != "" && row.quantity.n > 0)
  {
    row.supplierProductId != "" && IsPositive(row.quantity)
  }

  function ItemOf(row: EditRow): BulkItem
    requires ValidRow(row)
  {
    BulkItem(row.supplierProductId, ToNumber(row.quantity).value)
  }

  /** `.filter(valid).map(toItem)` over the rows. */
  function BulkItems(rows: seq<EditRow>): (items: seq<BulkItem>)
    ensures |items| <= |rows|
    ensures forall it :: it in items ==> Submittable(it)
    ensures (forall i :: 0 <= i < |rows| ==> ValidRow(rows[i])) ==> |items| == |rows|
    decreases |rows|
  {
    if rows == [] then []
    else (if ValidRow(rows[0]) then [ItemOf(rows[0])] else []) + BulkItems(rows[1..])
  }

  /** What a row would submit if it were kept (NaN read as 0). */
  function RowView(row: EditRow): BulkItem {
    BulkItem(row.supplierProductId, match ToNumber(row.quantity) case NaN => 0 case Num(n) => n)
  }

  function Views(rows: seq<EditRow>): (views: seq<BulkItem>)
    ensures |views| == |rows|
    ensures forall i :: 0 <= i < |rows| ==> views[i] == RowView(rows[i])
  {
    seq(|rows|, i requires 0 <= i < |rows| => RowView(rows[i]))
  }

  /** A payload line the backend is meant to receive: a chosen supplier product and a positive quantity. */
  predicate Submittable(item: BulkItem) {
    item.supplierProductId != "" && item.quantity > 0
  }

  /** Filter-then-map equals map-then-filter: the payload is the submittable row views, in order. */
  lemma {:induction false} BulkItemsAreSubmittableViews(rows: seq<EditRow>)
    ensures BulkItems(rows) == Filter(Submittable, Views(rows))
    decreases |rows|
  {
    if rows != [] {
      BulkItemsAreSubmittableViews(rows[1..]);
      assert Views(rows)[1..] == Views(rows[1..]);
      assert ValidRow(rows[0]) <==> Submittable(RowView(rows[0]));
    }
  }

  /**
   * The manage-mode payload: exactly the rows with a supplier product and a positive quantity,
   * in their order, duplicates kept; no valid row gives an empty list, not an error.
   */
  function BulkReplace(productId: string, rows: seq<EditRow>): (p: BulkReplacePayload)
    ensures p.productId == productId
    ensures forall it :: it in p.items <==> it in Views(rows) && Submittable(it)
    ensures forall it :: Submittable(it) ==> multiset(p.items)[it] == multiset(Views(rows))[it]
    ensures Subseq(p.items, Views(rows))
    ensures (forall i :: 0 <= i < |rows| ==> !ValidRow(rows[i])) ==> p.items == []
  {
    BulkItemsAreSubmittableViews(rows);
    NoValidRowNoItems(rows);
    BulkReplacePayload(productId, BulkItems(rows))
  }

  /** With no valid row the payload is the empty list. */
  lemma {:induction false} NoValidRowNoItems(rows: seq<EditRow>)
    ensures (forall i :: 0 <= i < |rows| ==> !ValidRow(rows[i])) ==> BulkItems(rows) == []
    decreases |rows|
  {
    if rows != [] {
      NoValidRowNoItems(rows[1..]);
      assert forall i :: 1 <= i < |rows| ==> rows[1..][i - 1] == rows[i];
    }
  }

  /** Opening "manage" on a group of valid lines and saving without changes submits the same lines. */
  lemma {:induction false} ManageRoundTrip(items: seq<RecipeItem>)
    requires forall i :: 0 <= i < |items| ==> items[i].supplierProductId != "" && items[i].quantity > 0
    ensures |BulkItems(RowsOf(items))| == |items|
    ensures forall i :: 0 <= i < |items| ==>
              BulkItems(RowsOf(items))[i] == BulkItem(items[i].supplierProductId, items[i].quantity)
    decreases |items|
  {
    if items != [] {
      ManageRoundTrip(items[1..]);
      assert RowsOf(items)[1..] == RowsOf(items[1..]);
      assert RowsOf(items)[0] == EditRow(items[0].supplierProductId, Held(items[0].quantity));
    }
  }

  // ----- The modal and its three submissions -----

  datatype Mode = Create | EditQty | Manage

  datatype RecipeForm = RecipeForm(productId: string, supplierProductId: string, quantity: NumField)

  const InitialForm := RecipeForm("", "", Typed(""))

  /** The modal's inputs: the product select, the supplier-product select, the quantity box. */
  datatype FormInput = ProductSelect | SupplierProductSelect | QuantityInput

  /** `setFormData({ ...formData, <field>: e.target.value })`. */
  function SetInput(f: RecipeForm, input: FormInput, value: string): (r: RecipeForm)
    ensures input == ProductSelect ==> r == f.(productId := value)
    ensures input == SupplierProductSelect ==> r == f.(supplierProductId := value)
    ensures input == QuantityInput ==> r == f.(quantity := Typed(value))
  {
    match input
    case ProductSelect => f.(productId := value)
    case SupplierProductSelect => f.(supplierProductId := value)
    case QuantityInput => f.(quantity := Typed(value))
  }

  datatype CreateLine = CreateLine(supplierProductId: string, quantity: JsNum)

  /** The call `handleSubmit` makes in each mode. */
  datatype RecipeRequest =
    | ReplaceRecipe(payload: BulkReplacePayload)
    | UpdateRecipeItem(id: string, quantity: JsNum)
    | CreateRecipe(productId: string, items: seq<CreateLine>)

  /** The view-model state the page's handlers update. */
  class RecipesPage {
    var selectedSupplierId: string
    var expandedIds: map<string, bool>
    var isModalOpen: bool
    var mode: Mode
    var currentId: Option<string>
    var currentProductId: Option<string>
    var rows: seq<EditRow>
    var form: RecipeForm

    /** The modal's mode always has its target: a recipe line to edit, a product to manage. */
    ghost predicate Valid()
      reads this
    {
      (mode == EditQty ==> currentId.Some?) && (mode == Manage ==> currentProductId.Some?)
    }

    constructor ()
      ensures Valid()
      ensures selectedSupplierId == "" && expandedIds == map[] && !isModalOpen
      ensures mode == Create && currentId == None && currentProductId == None
      ensures rows == [] && form == InitialForm
    {
      selectedSupplierId := "";
      expandedIds := map[];
      isModalOpen := false;
      mode := Create;
      currentId := None;
      currentProductId := None;
      rows := [];
      form := InitialForm;
    }

    /** Clicking a supplier card selects it, or clears the selection if it was the selected one. */
    method ClickSupplier(id: string)
      requires Valid()
      modifies this`selectedSupplierId
      ensures Valid()
      ensures selectedSupplierId == ToggleSelection(old(selectedSupplierId), id)
    {
      selectedSupplierId := ToggleSelection(selectedSupplierId, id);
    }

    /** The "Reset" chip. */
    method ResetSupplier()
      requires Valid()
      modifies this`selectedSupplierId
      ensures Valid()
      ensures selectedSupplierId == ""
    {
      selectedSupplierId := "";
    }

    /** `toggleExpand`: flips one product's accordion flag and keeps every other flag. */
    method ToggleExpand(productId: string)
      requires Valid()
      modifies this`expandedIds
      ensures Valid()
      ensures Flag(expandedIds, productId) == !Flag(old(expandedIds), productId)
      ensures forall k :: k != productId ==> Flag(expandedIds, k) == Flag(old(expandedIds), k)
    {
      expandedIds := Toggle(expandedIds, productId);
    }

    /** `handleOpenAddGlobal`. */
    method OpenAddGlobal()
      requires Valid()
      modifies this`mode, this`form, this`isModalOpen
      ensures Valid() && mode == Create && form == InitialForm && isModalOpen
    {
      mode := Create;
      form := InitialForm;
      isModalOpen := true;
    }

    /** `handleOpenManage`: one editable row per recipe line of the group. */
    method OpenManage(group: RecipeGroup)
      requires Valid()
      modifies this`mode, this`currentProductId, this`rows, this`isModalOpen
      ensures Valid() && mode == Manage && isModalOpen
      ensures currentProductId == Some(group.productId)
      ensures rows == RowsOf(group.items)
    {
      mode := Manage;
      currentProductId := Some(group.productId);
      rows := RowsOf(group.items);
      isModalOpen := true;
    }

    /** `handleOpenEditQty`: the form keeps only the line's quantity. */
    method OpenEditQty(item: RecipeItem)
      requires Valid()
      modifies this`mode, this`currentId, this`form, this`isModalOpen
      ensures Valid() && mode == EditQty && isModalOpen
      ensures currentId == Some(item.id)
      ensures form == RecipeForm("", "", Held(item.quantity))
    {
      mode := EditQty;
      currentId := Some(item.id);
      form := InitialForm.(quantity := Held(item.quantity));
      isModalOpen := true;
    }

    /** One of the create / edit-quantity inputs changes. */
    method ChangeInput(input: FormInput, value: string)
      requires Valid()
      modifies this`form
      ensures Valid()
      ensures form == SetInput(old(form), input, value)
    {
      form := SetInput(form, input, value);
    }

    /** The modal's cancel button. */
    method CloseModal()
      requires Valid()
      modifies this`isModalOpen
      ensures Valid()
      ensures !isModalOpen
    {
      isModalOpen := false;
    }

    /** `handleManageChange`: only the named field of the row at `index` changes. */
    method ChangeRow(index: nat, edit: RowEdit)
      requires Valid() && index < |rows|
      modifies this`rows
      ensures Valid()
      ensures |rows| == |old(rows)|
      ensures forall j :: 0 <= j < |rows| && j != index ==> rows[j] == old(rows)[j]
      ensures edit.SetSupplierProduct? ==>
                rows[index].supplierProductId == edit.id && rows[index].quantity == old(rows)[index].quantity
      ensures edit.SetQuantity? ==>
                rows[index].quantity == edit.value &&
                rows[index].supplierProductId == old(rows)[index].supplierProductId
    {
      rows := rows[index := ApplyEdit(rows[index], edit)];
    }

    /** `handleAddItemRow`: one blank row at the end. */
    method AddRow()
      requires Valid()
      modifies this`rows
      ensures Valid()
      ensures rows == old(rows) + [BlankRow]
    {
      rows := rows + [BlankRow];
    }

    /** `handleRemoveItemRow`: `splice(index, 1)`, which does nothing past the end. */
    method RemoveRow(index: nat)
      requires Valid()
      modifies this`rows
      ensures Valid()
      ensures index < |old(rows)| ==> |rows| == |old(rows)| - 1
      ensures index < |old(rows)| ==> forall j :: 0 <= j < index ==> rows[j] == old(rows)[j]
      ensures index < |old(rows)| ==> forall j :: index <= j < |rows| ==> rows[j] == old(rows)[j + 1]
      ensures index >= |old(rows)| ==> rows == old(rows)
    {
      if index < |rows| {
        rows := rows[..index] + rows[index + 1..];
      }
    }

    /**
     * `handleSubmit`: builds the mode's request; when the call succeeds the modal closes and,
     * in manage mode, the product's accordion is left open. A failed call changes nothing.
     */
    method Submit(outcome: Outcome) returns (request: RecipeRequest)
      requires Valid()
      modifies this`expandedIds, this`isModalOpen
      ensures Valid()
      ensures mode == Manage ==> request == ReplaceRecipe(BulkReplace(currentProductId.value, rows))
      ensures mode == EditQty ==> request == UpdateRecipeItem(currentId.value, ToNumber(form.quantity))
      ensures mode == Create ==> request == CreateRecipe(form.productId,
                [CreateLine(form.supplierProductId, ToNumber(form.quantity))])
      ensures outcome.Ok? ==> !isModalOpen
      ensures outcome.Ok? && mode == Manage ==> expandedIds == Raise(old(expandedIds), currentProductId.value)
      ensures outcome.Ok? && mode != Manage ==> expandedIds == old(expandedIds)
      ensures outcome.Failed? ==> expandedIds == old(expandedIds) && isModalOpen == old(isModalOpen)
    {
      match mode {
        case Manage =>
          request := ReplaceRecipe(BulkReplace(currentProductId.value, rows));
          if outcome.Ok? {
            expandedIds := Raise(expandedIds, currentProductId.value);
          }
        case EditQty =>
          request := UpdateRecipeItem(currentId.value, ToNumber(form.quantity));
        case Create =>
          request := CreateRecipe(form.productId, [CreateLine(form.supplierProductId, ToNumber(form.quantity))]);
      }
      if outcome.Ok? {
        isModalOpen := false;
      }
    }
  }
}

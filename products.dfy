/**
 * The products page (`ProductsPage`): products shown for a supplier through their recipes,
 * the admin gate, and the create/update form.
 */
module Products {
  import opened Common
  import opened Seqs
  import opened FormValues
  import opened Catalog

  /** The supplier product `id` resolves, by the first match, to one owned by `supplierId`. */
  function SuppliedBy(sps: seq<SupplierProduct>, id: string, supplierId: string): (supplied: bool)
    ensures supplied <==> exists i :: 0 <= i < |sps| && sps[i].id == id && sps[i].supplierId == supplierId &&
                                      forall j :: 0 <= j < i ==> sps[j].id != id
  {
    match FindSupplierProduct(sps, id)
    case Some(sp) => sp.supplierId == supplierId
    case None => false
  }

  /**
   * The product's first recipe group has a line whose supplier product belongs to `supplierId`
   * (the product's own `supplier_id` plays no part).
   */
  function UsesSupplier(product: Product, recipes: seq<RecipeGroup>, sps: seq<SupplierProduct>,
                        supplierId: string): (uses: bool)
    ensures uses ==> FindGroup(recipes, product.id).Some? && FindGroup(recipes, product.id).value.items != []
    ensures uses ==> exists sp :: sp in sps && sp.supplierId == supplierId
    ensures uses ==> FindGroup(recipes, product.id).Some? &&
                     exists it :: it in FindGroup(recipes, product.id).value.items &&
                                  SuppliedBy(sps, it.supplierProductId, supplierId)
    ensures FindGroup(recipes, product.id).Some? ==>
              forall it ::
                (it in FindGroup(recipes, product.id).value.items && SuppliedBy(sps, it.supplierProductId, supplierId))
                ==> uses
  {
    match FindGroup(recipes, product.id)
    case None => false
    case Some(g) => exists i :: 0 <= i < |g.items| && SuppliedBy(sps, g.items[i].supplierProductId, supplierId)
  }

  /** `filteredProducts`: nothing until a supplier is chosen, then the products whose recipe uses it. */
  function FilteredProducts(products: seq<Product>, recipes: seq<RecipeGroup>, sps: seq<SupplierProduct>,
                            selected: string): (r: seq<Product>)
    ensures selected == "" ==> r == []
    ensures forall p :: p in r <==> selected != "" && p in products && UsesSupplier(p, recipes, sps, selected)
    ensures Subseq(r, products)
  {
    if selected == "" then []
    else Filter((p: Product) => UsesSupplier(p, recipes, sps, selected), products)
  }

  /** A product without a recipe group, or whose first group has no lines, is never shown. */
  lemma NoRecipeNotShown(products: seq<Product>, recipes: seq<RecipeGroup>, sps: seq<SupplierProduct>,
                         selected: string, p: Product)
    requires FindGroup(recipes, p.id).None? || FindGroup(recipes, p.id).value.items == []
    ensures p !in FilteredProducts(products, recipes, sps, selected)
  {
  }

  /**
   * The filter goes through recipes, not `product.supplier_id`: a product of supplier "s1" with no
   * recipe is hidden under "s1", while one of supplier "s2" built from an "s1" item is shown.
   */
  lemma FilterIgnoresProductSupplier()
    ensures var own := Product("p1", "s1", "A", 0, 0, 0, true);
            var other := Product("p2", "s2", "B", 0, 0, 0, true);
            var sp := SupplierProduct("sp1", "s1", "X1", "X", 0, 0, 0, true);
            var recipes := [RecipeGroup("p2", "B", [RecipeItem("r1", "sp1", 2)])];
            FilteredProducts([own, other], recipes, [sp], "s1") == [other]
  {
    var own := Product("p1", "s1", "A", 0, 0, 0, true);
    var other := Product("p2", "s2", "B", 0, 0, 0, true);
    var sp := SupplierProduct("sp1", "s1", "X1", "X", 0, 0, 0, true);
    var recipes := [RecipeGroup("p2", "B", [RecipeItem("r1", "sp1", 2)])];
    assert !UsesSupplier(own, recipes, [sp], "s1");
    assert UsesSupplier(other, recipes, [sp], "s1") by {
      assert FindGroup(recipes, "p2") == Some(recipes[0]);
      assert FindSupplierProduct([sp], "sp1") == Some(sp);
      assert SuppliedBy([sp], recipes[0].items[0].supplierProductId, "s1");
    }
    var r := FilteredProducts([own, other], recipes, [sp], "s1");
    assert own != other;
    assert r == [other] by {
      assert other in r && own !in r;
    }
  }

  /** `userRole === "Admin"` (the role is null until the profile arrives). */
  function IsAdmin(role: Option<string>): (admin: bool)
    ensures admin <==> role.Some? && role.value == "Admin"
  {
    role == Some("Admin")
  }

  /** The "add product" button shows only to an admin with a supplier chosen. */
  function CanAdd(role: Option<string>, selected: string): (shown: bool)
    ensures shown ==> IsAdmin(role) && selected != ""
    ensures IsAdmin(role) && selected != "" ==> shown
  {
    IsAdmin(role) && selected != ""
  }

  /** A product added through the shown button always names the selected, non-empty supplier. */
  lemma AddedProductHasSupplier(role: Option<string>, selected: string, form: ProductForm)
    requires CanAdd(role, selected)
    ensures CreatePayload(form, selected).supplierId == Some(selected) && selected != ""
    ensures CreatePayload(form, selected).(supplierId := None) == UpdatePayload(form)
  {
  }

  datatype ProductForm = ProductForm(name: string, denom: NumField, price: NumField, qty: NumField, status: StatusField)

  const InitialForm := ProductForm("", Typed(""), Typed(""), Typed(""), TextValue("true"))

  /** The modal's inputs: the name box, three number boxes and the status select. */
  datatype ProductInput = NameInput | DenomInput | QtyInput | PriceInput | StatusSelect

  /** `setFormData({ ...formData, <field>: e.target.value })`: every input yields text. */
  function SetInput(f: ProductForm, input: ProductInput, value: string): (r: ProductForm)
    ensures input == NameInput ==> r == f.(name := value)
    ensures input == DenomInput ==> r == f.(denom := Typed(value))
    ensures input == QtyInput ==> r == f.(qty := Typed(value))
    ensures input == PriceInput ==> r == f.(price := Typed(value))
    ensures input == StatusSelect ==> r == f.(status := TextValue(value))
  {
    match input
    case NameInput => f.(name := value)
    case DenomInput => f.(denom := Typed(value))
    case QtyInput => f.(qty := Typed(value))
    case PriceInput => f.(price := Typed(value))
    case StatusSelect => f.(status := TextValue(value))
  }

  /** The JSON body; `supplierId` is present only when creating. */
  datatype ProductPayload = ProductPayload(
    name: string, denom: JsNum, price: JsNum, qty: JsNum, status: bool, supplierId: Option<string>)

  function BasePayload(form: ProductForm): ProductPayload {
    ProductPayload(form.name, ToNumber(form.denom), ToNumber(form.price), ToNumber(form.qty),
                   StatusOf(form.status), None)
  }

  /** `createPayload`: the converted form plus the selected supplier. */
  function CreatePayload(form: ProductForm, selected: string): (p: ProductPayload)
    ensures p.supplierId == Some(selected)
    ensures p.(supplierId := None) == UpdatePayload(form)
  {
    BasePayload(form).(supplierId := Some(selected))
  }

  /** The update payload: the name as typed, the amounts through `Number(...)`, no supplier. */
  function UpdatePayload(form: ProductForm): (p: ProductPayload)
    ensures p.name == form.name
    ensures p.denom == ToNumber(form.denom) && p.price == ToNumber(form.price) && p.qty == ToNumber(form.qty)
    ensures p.supplierId == None
    ensures p.status <==> form.status == TextValue("true") || form.status == BoolValue(true)
  {
    BasePayload(form)
  }

  /** `handleOpenEdit`'s form: the fields copied, the status as "true"/"false"; each reads back as the product's. */
  function EditForm(p: Product): (f: ProductForm)
    ensures f.name == p.name
    ensures ToNumber(f.denom) == Num(p.denom) && ToNumber(f.price) == Num(p.price) && ToNumber(f.qty) == Num(p.qty)
    ensures f.status == TextValue("true") || f.status == TextValue("false")
    ensures StatusOf(f.status) == p.status
  {
    ProductForm(p.name, Held(p.denom), Held(p.price), Held(p.qty), StatusText(p.status))
  }

  /** Opening a product for edit and saving it unchanged sends back its own values. */
  lemma EditRoundTrip(p: Product)
    ensures UpdatePayload(EditForm(p)) ==
            ProductPayload(p.name, Num(p.denom), Num(p.price), Num(p.qty), p.status, None)
  {
    StatusRoundTrip(p.status);
  }

  datatype ProductRequest = CreateProduct(payload: ProductPayload) | UpdateProduct(id: Option<string>, payload: ProductPayload)

  class ProductsPage {
    var role: Option<string>
    var selectedSupplierId: string
    var isModalOpen: bool
    var isEditing: bool
    var currentId: Option<string>
    var form: ProductForm

    constructor ()
      ensures role == None && selectedSupplierId == "" && !isModalOpen && !isEditing
      ensures currentId == None && form == InitialForm
    {
      role := None;
      selectedSupplierId := "";
      isModalOpen, isEditing := false, false;
      currentId := None;
      form := InitialForm;
    }

    /** The profile response sets the role. */
    method LoadRole(roleName: Option<string>)
      modifies this`role
      ensures role == roleName
    {
      role := roleName;
    }

    method ClickSupplier(id: string)
      modifies this`selectedSupplierId
      ensures selectedSupplierId == ToggleSelection(old(selectedSupplierId), id)
    {
      selectedSupplierId := ToggleSelection(selectedSupplierId, id);
    }

    method ResetSupplier()
      modifies this`selectedSupplierId
      ensures selectedSupplierId == ""
    {
      selectedSupplierId := "";
    }

    /** `handleOpenAdd` (the handler itself does not check the gate; the button does). */
    method OpenAdd()
      modifies this`isEditing, this`form, this`isModalOpen
      ensures !isEditing && form == InitialForm && isModalOpen
    {
      isEditing := false;
      form := InitialForm;
      isModalOpen := true;
    }

    method OpenEdit(p: Product)
      modifies this`isEditing, this`currentId, this`form, this`isModalOpen
      ensures isEditing && currentId == Some(p.id) && form == EditForm(p) && isModalOpen
    {
      isEditing := true;
      currentId := Some(p.id);
      form := EditForm(p);
      isModalOpen := true;
    }

    /** One of the modal's inputs changes. */
    method ChangeInput(input: ProductInput, value: string)
      modifies this`form
      ensures form == SetInput(old(form), input, value)
    {
      form := SetInput(form, input, value);
    }

    /** The modal's close control and its "Batal" button. */
    method CloseModal()
      modifies this`isModalOpen
      ensures !isModalOpen
    {
      isModalOpen := false;
    }

    /** `handleSubmit`: update the current product, or create one for the selected supplier. */
    method Submit(outcome: Outcome) returns (request: ProductRequest)
      modifies this`isModalOpen
      ensures isEditing ==> request == UpdateProduct(currentId, UpdatePayload(form))
      ensures !isEditing ==> request == CreateProduct(CreatePayload(form, selectedSupplierId))
      ensures isModalOpen == (old(isModalOpen) && outcome.Failed?)
    {
      if isEditing {
        request := UpdateProduct(currentId, UpdatePayload(form));
      } else {
        request := CreateProduct(CreatePayload(form, selectedSupplierId));
      }
      if outcome.Ok? {
        isModalOpen := false;
      }
    }
  }
}

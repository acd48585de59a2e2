/** The supplier-products page: the create/edit modal and the payload it submits. */
module SupplierProducts {
  import opened Common
  import opened FormValues
  import opened Catalog

  /** The modal's seven fields; the three amounts are numeric inputs. */
  datatype ItemForm = ItemForm(
    supplierId: string, supplierProductId: string, name: string,
    denom: NumField, costPrice: NumField, price: NumField, status: StatusField)

  /** The modal's inputs: the supplier select, two text boxes, three number boxes, the status select. */
  datatype ItemInput = SupplierSelect | CodeInput | NameInput | DenomInput | CostPriceInput | PriceInput | StatusSelect

  const InitialForm := ItemForm("", "", "", Typed(""), Typed(""), Typed(""), TextValue("true"))

  /** The JSON body of create and update. */
  datatype ItemPayload = ItemPayload(
    supplierId: string, supplierProductId: string, name: string,
    denom: JsNum, costPrice: JsNum, price: JsNum, status: bool)

  datatype ItemRequest =
    | CreateItem(payload: ItemPayload)
    | UpdateItem(id: Option<string>, payload: ItemPayload)

  /** The spread form with the three amounts through `Number(...)` and the status made boolean. */
  function Payload(form: ItemForm): (p: ItemPayload)
    ensures p.supplierId == form.supplierId && p.supplierProductId == form.supplierProductId
    ensures p.name == form.name
    ensures p.denom == ToNumber(form.denom) && p.costPrice == ToNumber(form.costPrice)
    ensures p.price == ToNumber(form.price)
    ensures p.status <==> form.status == TextValue("true") || form.status == BoolValue(true)
  {
    ItemPayload(form.supplierId, form.supplierProductId, form.name,
                ToNumber(form.denom), ToNumber(form.costPrice), ToNumber(form.price), StatusOf(form.status))
  }

  /** `handleOpenEdit`'s form: six fields copied as they are, status as "true"/"false". */
  function EditForm(sp: SupplierProduct): (f: ItemForm)
    ensures f.supplierId == sp.supplierId && f.supplierProductId == sp.supplierProductId && f.name == sp.name
    ensures ToNumber(f.denom) == Num(sp.denom) && ToNumber(f.costPrice) == Num(sp.costPrice)
    ensures ToNumber(f.price) == Num(sp.price)
    ensures f.status == TextValue("true") || f.status == TextValue("false")
    ensures StatusOf(f.status) == sp.status
  {
    ItemForm(sp.supplierId, sp.supplierProductId, sp.name,
             Held(sp.denom), Held(sp.costPrice), Held(sp.price), StatusText(sp.status))
  }

  /** `setFormData({ ...formData, <field>: e.target.value })`: every input yields text. */
  function SetInput(f: ItemForm, input: ItemInput, value: string): (r: ItemForm)
    ensures input == SupplierSelect ==> r == f.(supplierId := value)
    ensures input == CodeInput ==> r == f.(supplierProductId := value)
    ensures input == NameInput ==> r == f.(name := value)
    ensures input == DenomInput ==> r == f.(denom := Typed(value))
    ensures input == CostPriceInput ==> r == f.(costPrice := Typed(value))
    ensures input == PriceInput ==> r == f.(price := Typed(value))
    ensures input == StatusSelect ==> r == f.(status := TextValue(value))
  {
    match input
    case SupplierSelect => f.(supplierId := value)
    case CodeInput => f.(supplierProductId := value)
    case NameInput => f.(name := value)
    case DenomInput => f.(denom := Typed(value))
    case CostPriceInput => f.(costPrice := Typed(value))
    case PriceInput => f.(price := Typed(value))
    case StatusSelect => f.(status := TextValue(value))
  }

  /** Opening an item for edit and saving it unchanged sends back its own values. */
  lemma EditRoundTrip(sp: SupplierProduct)
    ensures Payload(EditForm(sp)) ==
            ItemPayload(sp.supplierId, sp.supplierProductId, sp.name,
                        Num(sp.denom), Num(sp.costPrice), Num(sp.price), sp.status)
  {
    StatusRoundTrip(sp.status);
  }

  /** An untouched new form submits zero amounts (`Number("")` is 0) and an active status. */
  lemma InitialPayload()
    ensures Payload(InitialForm) == ItemPayload("", "", "", Num(0), Num(0), Num(0), true)
  {
  }

  /** Typing an integer's digits into the price box submits that integer and nothing else changes. */
  lemma TypedPriceSubmitted(f: ItemForm, n: int)
    ensures Payload(SetInput(f, PriceInput, ShowInt(n))) == Payload(f).(price := Num(n))
  {
    TypedIntegerRoundTrip(n);
  }

  class SupplierProductsPage {
    var isModalOpen: bool
    var isEditing: bool
    var currentId: Option<string>
    var form: ItemForm

    constructor ()
      ensures !isModalOpen && !isEditing && currentId == None && form == InitialForm
    {
      isModalOpen, isEditing := false, false;
      currentId := None;
      form := InitialForm;
    }

    /** `handleOpenAdd`. */
    method OpenAdd()
      modifies this`isEditing, this`form, this`isModalOpen
      ensures !isEditing && form == InitialForm && isModalOpen
    {
      isEditing := false;
      form := InitialForm;
      isModalOpen := true;
    }

    /** `handleOpenEdit`. */
    method OpenEdit(sp: SupplierProduct)
      modifies this`isEditing, this`currentId, this`form, this`isModalOpen
      ensures isEditing && currentId == Some(sp.id) && form == EditForm(sp) && isModalOpen
    {
      isEditing := true;
      currentId := Some(sp.id);
      form := EditForm(sp);
      isModalOpen := true;
    }

    /** One of the modal's inputs changes. */
    method ChangeInput(input: ItemInput, value: string)
      modifies this`form
      ensures form == SetInput(old(form), input, value)
    {
      form := SetInput(form, input, value);
    }

    /** The modal's cancel button. */
    method CloseModal()
      modifies this`isModalOpen
      ensures !isModalOpen
    {
      isModalOpen := false;
    }

    /** `handleSubmit`: update the current item or create one; only success closes the modal. */
    method Submit(outcome: Outcome) returns (request: ItemRequest)
      modifies this`isModalOpen
      ensures isEditing ==> request == UpdateItem(currentId, Payload(form))
      ensures !isEditing ==> request == CreateItem(Payload(form))
      ensures isModalOpen == (old(isModalOpen) && outcome.Failed?)
    {
      if isEditing {
        request := UpdateItem(currentId, Payload(form));
      } else {
        request := CreateItem(Payload(form));
      }
      if outcome.Ok? {
        isModalOpen := false;
      }
    }
  }
}

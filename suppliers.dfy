/** The suppliers page: the create/edit modal and the payload it submits. */
module Suppliers {
  import opened Common
  import opened FormValues
  import opened Catalog

  /** The modal's fields; `status` is the select's text ("true"/"false"). */
  datatype SupplierForm = SupplierForm(name: string, code: string, supplierType: string, status: StatusField)

  /** The modal's inputs: three text boxes and the status select. */
  datatype SupplierInput = NameInput | CodeInput | TypeInput | StatusSelect

  const InitialForm := SupplierForm("", "", "official", TextValue("true"))

  /** The JSON body of create and update. */
  datatype SupplierPayload = SupplierPayload(name: string, code: string, supplierType: string, status: bool)

  datatype SupplierRequest =
    | CreateSupplier(payload: SupplierPayload)
    | UpdateSupplier(id: Option<string>, payload: SupplierPayload)

  /** `{ ...formData, status: formData.status === "true" || formData.status === true }`. */
  function Payload(form: SupplierForm): (p: SupplierPayload)
    ensures p.name == form.name && p.code == form.code && p.supplierType == form.supplierType
    ensures p.status <==> form.status == TextValue("true") || form.status == BoolValue(true)
  {
    SupplierPayload(form.name, form.code, form.supplierType, StatusOf(form.status))
  }

  /** `handleOpenEdit`'s form: the record's fields, status as "true"/"false". */
  function EditForm(s: Supplier): (f: SupplierForm)
    ensures f.name == s.name && f.code == s.code && f.supplierType == s.supplierType
    ensures f.status == TextValue("true") || f.status == TextValue("false")
    ensures StatusOf(f.status) == s.status
  {
    SupplierForm(s.name, s.code, s.supplierType, StatusText(s.status))
  }

  /** `setFormData({ ...formData, <field>: e.target.value })`. */
  function SetInput(f: SupplierForm, input: SupplierInput, value: string): (r: SupplierForm)
    ensures input == NameInput ==> r == f.(name := value)
    ensures input == CodeInput ==> r == f.(code := value)
    ensures input == TypeInput ==> r == f.(supplierType := value)
    ensures input == StatusSelect ==> r == f.(status := TextValue(value))
  {
    match input
    case NameInput => f.(name := value)
    case CodeInput => f.(code := value)
    case TypeInput => f.(supplierType := value)
    case StatusSelect => f.(status := TextValue(value))
  }

  /** Opening a supplier for edit and saving it unchanged sends back its own fields. */
  lemma EditRoundTrip(s: Supplier)
    ensures Payload(EditForm(s)) == SupplierPayload(s.name, s.code, s.supplierType, s.status)
  {
    StatusRoundTrip(s.status);
  }

  /** A new supplier submitted untouched is an active "official" one with empty name and code. */
  lemma InitialPayload()
    ensures Payload(InitialForm) == SupplierPayload("", "", "official", true)
  {
  }

  /** Picking an option of the status select decides the submitted status, whatever the form held. */
  lemma StatusSelectDecides(f: SupplierForm, value: string)
    ensures Payload(SetInput(f, StatusSelect, value)).status <==> value == "true"
    ensures Payload(SetInput(f, StatusSelect, value)).name == f.name
  {
  }

  class SuppliersPage {
    var isModalOpen: bool
    var isEditing: bool
    var currentId: Option<string>
    var form: SupplierForm

    constructor ()
      ensures !isModalOpen && !isEditing && currentId == None && form == InitialForm
    {
      isModalOpen, isEditing := false, false;
      currentId := None;
      form := InitialForm;
    }

    /** `handleOpenAdd`. */
    method OpenAdd()
      modifies this`isEditing, this`form, this`isModalOpen
      ensures !isEditing && form == InitialForm && isModalOpen
    {
      isEditing := false;
      form := InitialForm;
      isModalOpen := true;
    }

    /** `handleOpenEdit`. */
    method OpenEdit(s: Supplier)
      modifies this`isEditing, this`currentId, this`form, this`isModalOpen
      ensures isEditing && currentId == Some(s.id) && form == EditForm(s) && isModalOpen
    {
      isEditing := true;
      currentId := Some(s.id);
      form := EditForm(s);
      isModalOpen := true;
    }

    /** One of the modal's inputs changes. */
    method ChangeInput(input: SupplierInput, value: string)
      modifies this`form
      ensures form == SetInput(old(form), input, value)
    {
      form := SetInput(form, input, value);
    }

    /** The modal's cancel button. */
    method CloseModal()
      modifies this`isModalOpen
      ensures !isModalOpen
    {
      isModalOpen := false;
    }

    /** `handleSubmit`: update the current supplier or create one; only success closes the modal. */
    method Submit(outcome: Outcome) returns (request: SupplierRequest)
      modifies this`isModalOpen
      ensures isEditing ==> request == UpdateSupplier(currentId, Payload(form))
      ensures !isEditing ==> request == CreateSupplier(Payload(form))
      ensures isModalOpen == (old(isModalOpen) && outcome.Failed?)
    {
      if isEditing {
        request := UpdateSupplier(currentId, Payload(form));
      } else {
        request := CreateSupplier(Payload(form));
      }
      if outcome.Ok? {
        isModalOpen := false;
      }
    }
  }
}

/**
 * The new-transaction page (`TransactionPage`): choose a supplier, one of its products and a
 * destination, and submit an order carrying a client-generated reference id.
 */
module Transactions {
  import opened Common
  import opened Seqs
  import opened Text
  import opened Catalog

  /** `filteredProducts`: the chosen supplier's products; none until a supplier is chosen. */
  function FilteredProducts(products: seq<Product>, supplierId: string): (r: seq<Product>)
    ensures supplierId == "" ==> r == []
    ensures forall p :: p in r <==> supplierId != "" && p in products && p.supplierId == supplierId
    ensures Subseq(r, products)
  {
    if supplierId == "" then [] else Filter((p: Product) => p.supplierId == supplierId, products)
  }

  /** `Math.random()` yields multiples of 2^-53: the model takes the numerator `k`. */
  const RandomScale: nat := 0x20_0000_0000_0000

  /**
   * `Math.floor(Math.random() * 1000)` with `Math.random() == k / 2^53`, computed exactly: it
   * covers the same range of values, though for a few `k` the rounded double product lands on
   * the next integer.
   */
  function RandomSuffix(k: nat): (n: nat)
    requires k < RandomScale
    ensures n < 1000
  {
    k * 1000 / RandomScale
  }

  /** `generateRefId`'s text: `ORDER-${Date.now()}-${suffix}`. */
  function RefId(timestamp: nat, k: nat): (s: string)
    requires k < RandomScale
    ensures StartsWith(s, "ORDER-")
    ensures forall i :: 6 <= i < |s| ==> IsDigit(s[i]) || s[i] == '-'
  {
    "ORDER-" + ShowNat(timestamp) + "-" + ShowNat(RandomSuffix(k))
  }

  datatype RefIdParts = RefIdParts(timestamp: nat, suffix: nat)

  /** Reads text of the form `ORDER-<digits>-<digits>`. */
  function ParseRefId(s: string): Option<RefIdParts> {
    if !StartsWith(s, "ORDER-") then None
    else
      var rest := s[6..];
      match IndexOf(rest, '-')
      case None => None
      case Some(i) =>
        var t, n := rest[..i], rest[i + 1..];
        if t != "" && n != "" && AllDigits(t) && AllDigits(n)
        then Some(RefIdParts(ParseDigits(t), ParseDigits(n)))
        else None
  }

  /** Digits contain no '-'. */
  lemma DigitsHaveNoDash(s: string)
    requires AllDigits(s)
    ensures '-' !in s
  {
    assert forall i :: 0 <= i < |s| ==> s[i] != '-';
  }

  /** A generated reference reads back as its timestamp and a suffix below 1000. */
  lemma RefIdFormat(timestamp: nat, k: nat)
    requires k < RandomScale
    ensures ParseRefId(RefId(timestamp, k)) == Some(RefIdParts(timestamp, RandomSuffix(k)))
    ensures RandomSuffix(k) < 1000
  {
    var a, b := ShowNat(timestamp), ShowNat(RandomSuffix(k));
    var s := RefId(timestamp, k);
    var rest := a + "-" + b;
    assert s == "ORDER-" + rest && s[6..] == rest;
    DigitsHaveNoDash(a);
    IndexOfAfterPrefix(a, '-', b);
    assert rest[..|a|] == a && rest[|a| + 1..] == b;
    ParseShowNat(timestamp);
    ParseShowNat(RandomSuffix(k));
  }

  /** References generated at different milliseconds, or with different suffixes, differ. */
  lemma RefIdInjective(t1: nat, k1: nat, t2: nat, k2: nat)
    requires k1 < RandomScale && k2 < RandomScale
    requires RefId(t1, k1) == RefId(t2, k2)
    ensures t1 == t2 && RandomSuffix(k1) == RandomSuffix(k2)
  {
    RefIdFormat(t1, k1);
    RefIdFormat(t2, k2);
  }

  /** The submit button's `disabled` condition, negated. */
  function SubmitEnabled(isSubmitting: bool, supplierId: string, productId: string): (enabled: bool)
    ensures enabled ==> supplierId != "" && productId != "" && !isSubmitting
    ensures !isSubmitting && supplierId != "" && productId != "" ==> enabled
  {
    !(isSubmitting || supplierId == "" || productId == "")
  }

  /** The body of `POST /seller/order`. */
  datatype OrderRequest = OrderRequest(supplierId: string, productId: string, destination: string, refId: string)

  datatype OrderResponse = OrderResponse(trxId: string, product: string, status: string, quantityLoop: int)

  /** What `apiService.createOrder` did: resolved with a response, or threw. */
  datatype OrderResult = Accepted(response: OrderResponse) | Rejected(message: string)

  /** The order form state machine. */
  class OrderPage {
    var supplierId: string
    var productId: string
    var destination: string
    var refId: string
    var isSubmitting: bool
    var isSuccessModalOpen: bool
    var successData: Option<OrderResponse>

    /** Mounting: an empty form whose reference the mount effect generates. */
    constructor (timestamp: nat, k: nat)
      requires k < RandomScale
      ensures supplierId == "" && productId == "" && destination == ""
      ensures refId == RefId(timestamp, k)
      ensures !isSubmitting && !isSuccessModalOpen && successData == None
    {
      supplierId, productId, destination := "", "", "";
      refId := RefId(timestamp, k);
      isSubmitting, isSuccessModalOpen := false, false;
      successData := None;
    }

    /**
     * `handleSelectSupplier`: selects the supplier, or deselects it when it is the current one;
     * either way the product is cleared. Destination and reference are untouched (frame).
     */
    method SelectSupplier(id: string)
      modifies this`supplierId, this`productId
      ensures supplierId == ToggleSelection(old(supplierId), id)
      ensures productId == ""
    {
      supplierId := ToggleSelection(supplierId, id);
      productId := "";
    }

    /** `handleResetSupplier`: clears supplier and product only. */
    method ResetSupplier()
      modifies this`supplierId, this`productId
      ensures supplierId == "" && productId == ""
    {
      supplierId, productId := "", "";
    }

    /** The product select's `onChange`. */
    method ChooseProduct(id: string)
      modifies this`productId
      ensures productId == id
    {
      productId := id;
    }

    /** The destination input's `onChange`. */
    method EnterDestination(text: string)
      modifies this`destination
      ensures destination == text
    {
      destination := text;
    }

    /** `generateRefId`: only the reference changes. */
    method GenerateRefId(timestamp: nat, k: nat)
      requires k < RandomScale
      modifies this`refId
      ensures refId == RefId(timestamp, k)
    {
      refId := RefId(timestamp, k);
    }

    /** Whether the submit button is enabled. */
    function CanSubmit(): (enabled: bool)
      reads this
      ensures enabled ==> supplierId != "" && productId != "" && !isSubmitting
      ensures !isSubmitting && supplierId != "" && productId != "" ==> enabled
    {
      SubmitEnabled(isSubmitting, supplierId, productId)
    }

    /**
     * `handleSubmit`: without a supplier nothing is sent and nothing changes. Otherwise the form
     * is sent; on success product and destination are cleared (supplier and reference kept) and
     * the success modal opens; on failure the form, reference included, stays as it was.
     */
    method Submit(result: OrderResult) returns (sent: Option<OrderRequest>)
      modifies this`productId, this`destination, this`isSubmitting, this`isSuccessModalOpen, this`successData
      ensures old(supplierId) == "" ==>
                sent == None && productId == old(productId) && destination == old(destination) &&
                isSubmitting == old(isSubmitting) && isSuccessModalOpen == old(isSuccessModalOpen) &&
                successData == old(successData)
      ensures old(supplierId) != "" ==>
                sent == Some(OrderRequest(supplierId, old(productId), old(destination), refId)) && !isSubmitting
      ensures old(supplierId) != "" && result.Accepted? ==>
                productId == "" && destination == "" &&
                isSuccessModalOpen && successData == Some(result.response)
      ensures old(supplierId) != "" && result.Rejected? ==>
                productId == old(productId) && destination == old(destination) &&
                isSuccessModalOpen == old(isSuccessModalOpen) && successData == old(successData)
    {
      if supplierId == "" {
        return None;
      }
      isSubmitting := true;
      sent := Some(OrderRequest(supplierId, productId, destination, refId));
      if result.Accepted? {
        successData := Some(result.response);
        isSuccessModalOpen := true;
        productId, destination := "", "";
      }
      isSubmitting := false;
    }

    /** `closeSuccessModal`: closes the modal and generates the next order's reference. */
    method CloseSuccessModal(timestamp: nat, k: nat)
      requires k < RandomScale
      modifies this`isSuccessModalOpen, this`successData, this`refId
      ensures !isSuccessModalOpen && successData == None
      ensures refId == RefId(timestamp, k)
    {
      isSuccessModalOpen := false;
      successData := None;
      GenerateRefId(timestamp, k);
    }
  }

  /** An enabled submit button always passes the handler's supplier guard. */
  lemma EnabledSubmitIsSent(page: OrderPage)
    requires page.CanSubmit()
    ensures page.supplierId != ""
  {
  }
}

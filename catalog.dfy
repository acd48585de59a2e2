/**
 * The records the pages fetch from the backend, the lookups they do over them, and the
 * supplier-card click that the recipes and products pages share.
 */
module Catalog {
  import opened Common
  import opened Find

  datatype Supplier = Supplier(id: string, name: string, code: string, supplierType: string, status: bool)

  datatype SupplierProduct = SupplierProduct(
    id: string, supplierId: string, supplierProductId: string, name: string,
    denom: int, costPrice: int, price: int, status: bool)

  datatype Product = Product(
    id: string, supplierId: string, name: string, denom: int, price: int, qty: int, status: bool)

  /** One line of a product's recipe. */
  datatype RecipeItem = RecipeItem(id: string, supplierProductId: string, quantity: int)

  /** A product's recipe lines as the backend groups them. */
  datatype RecipeGroup = RecipeGroup(productId: string, productName: string, items: seq<RecipeItem>)

  /** `products.find((p) => p.id === id)`. */
  function FindProduct(products: seq<Product>, id: string): (r: Option<Product>)
    ensures r.Some? ==> r.value in products && r.value.id == id
    ensures r.Some? ==> exists i :: 0 <= i < |products| && products[i] == r.value &&
                                    forall j :: 0 <= j < i ==> products[j].id != id
    ensures r.None? ==> forall p :: p in products ==> p.id != id
  {
    FindFirst((p: Product) => p.id == id, products)
  }

  /** `supplierProducts.find((s) => s.id === id)`. */
  function FindSupplierProduct(sps: seq<SupplierProduct>, id: string): (r: Option<SupplierProduct>)
    ensures r.Some? ==> r.value in sps && r.value.id == id
    ensures r.Some? ==> exists i :: 0 <= i < |sps| && sps[i] == r.value &&
                                    forall j :: 0 <= j < i ==> sps[j].id != id
    ensures r.None? ==> forall sp :: sp in sps ==> sp.id != id
  {
    FindFirst((sp: SupplierProduct) => sp.id == id, sps)
  }

  /** `recipes.find((r) => r.product_id === productId)`: the FIRST group for the product. */
  function FindGroup(recipes: seq<RecipeGroup>, productId: string): (r: Option<RecipeGroup>)
    ensures r.Some? ==> r.value.productId == productId &&
                        exists i :: 0 <= i < |recipes| && recipes[i] == r.value &&
                                    forall j :: 0 <= j < i ==> recipes[j].productId != productId
    ensures r.None? ==> forall g :: g in recipes ==> g.productId != productId
  {
    FindFirst((g: RecipeGroup) => g.productId == productId, recipes)
  }

  /** Clicking a supplier card: `(prev) => (prev === id ? "" : id)`. */
  function ToggleSelection(current: string, clicked: string): (r: string)
    ensures r == "" || r == clicked
    ensures clicked != "" ==> (r == clicked <==> current != clicked)
  {
    if current == clicked then "" else clicked
  }

  /**
   * Clicking the same card twice restores the selection exactly when nothing, or that card,
   * was selected; with another card selected the second click leaves nothing selected.
   */
  lemma ToggleSelectionTwice(current: string, clicked: string)
    ensures ToggleSelection(ToggleSelection(current, clicked), clicked) == current
            <==> current == "" || current == clicked
  {
  }
}

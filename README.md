# Gerbang API dashboard — view-model logic in Dafny

This project models the logic inside the pages of the Gerbang API admin dashboard, a Next.js
front end for a top-up / digital-product seller. What is modelled:

- the route guard;
- the role-based menu of the dashboard layout;
- the sidebar's open/active rules;
- the login page's payload choice and the state its buttons reset;
- for each page, the handler-driven state (modals, selections, forms, the manage-rows editor,
  the order form, the in-memory user list) and the payloads its submit handlers build.

Each page whose handlers update state step by step is a `class`. Its fields are the page's
`useState` variables, and its methods are the handlers with `modifies` frames. What the pages
compute without changing state is written as functions: the supplier-scoped filters, the menu
filter, the payload builders, the route decision, the initials and avatar colour. Lemmas relate
them: round trips from edit form to payload, filters as order-preserving subsequences, ids that
stay strictly increasing, and no redirect loop.

The modules are:

- `Common`: Option and call outcomes.
- `Seqs`: order-preserving subsequence, `filter`, strictly increasing keys.
- `Find`: the first-match `find`.
- `Text`: digits, `split`, `toUpperCase` on ASCII, `startsWith`.
- `FormValues`: JavaScript `Number()` on form fields, and the `"true"`/`"false"` status select.
- `Flags`: `{ ...prev, [key]: !prev[key] }` maps.
- `Catalog`: the backend records, their lookups, and the supplier-card toggle.
- `Avatar`: initials and avatar colour.
- One module per page: `Recipes`, `Transactions`, `Products`, `Layout`, `Middleware`, `Users`,
  `Suppliers`, `SupplierProducts`, `Login`, `Sidebar`.

Every backend call is an outcome parameter: `Outcome` is success or failure with a message, and
`OrderResult` carries the order response. `Date.now()` is a `nat` parameter. `Math.random()` is
its numerator `k` over 2^53. Two behaviours of the code are worth stating plainly:

- The create and edit-quantity submissions of the recipes page send `Number(quantity)` without
  any positivity check. Only the manage (bulk replace) path drops invalid rows.
- Clicking the same supplier card twice restores the previous selection only when nothing, or
  that same card, was selected (`Catalog.ToggleSelectionTwice`).

## Model

| member | source | states |
|---|---|---|
| Recipes.OwnedBy | app/dashboard/recipes/page.jsx:89-92 | true iff the first product with the group's product id exists and belongs to the supplier |
| Recipes.FilteredRecipes | app/dashboard/recipes/page.jsx:87-93 | no supplier gives []; a group is kept iff its product (first match by id) belongs to the selected supplier; the result is an order-preserving subsequence |
| Recipes.FilteredRecipesIdempotent | app/dashboard/recipes/page.jsx:87-93 | filtering the filtered list again by the same supplier changes nothing |
| Recipes.RowsOf | app/dashboard/recipes/page.jsx:161-172 | opening manage gives one row per recipe line, with that line's supplier product and quantity |
| Recipes.ApplyEdit | app/dashboard/recipes/page.jsx:182-186 | a row edit sets only the named field and keeps the other |
| Recipes.ValidRow | app/dashboard/recipes/page.jsx:110 | a row is kept iff what it would submit has a supplier product and a positive quantity; a loaded quantity is compared as it is |
| Recipes.BulkItems | app/dashboard/recipes/page.jsx:109-114 | never more items than rows, every item submittable, and as many items as rows when every row is valid |
| Recipes.Views | app/dashboard/recipes/page.jsx:109-114 | one payload view per row, in row order |
| Recipes.BulkItemsAreSubmittableViews | app/dashboard/recipes/page.jsx:109-114 | filter-then-map equals the row views filtered by "has a supplier product and quantity > 0" |
| Recipes.BulkReplace | app/dashboard/recipes/page.jsx:107-117 | product_id is currentProductId; the items are exactly the submittable rows, duplicates counted, order kept; all rows invalid gives [] |
| Recipes.NoValidRowNoItems | app/dashboard/recipes/page.jsx:109-114 | no valid row gives an empty item list rather than an error |
| Recipes.ManageRoundTrip | app/dashboard/recipes/page.jsx:107-117 | opening manage on valid lines and saving unchanged submits the same lines with the same quantities |
| Recipes.SetInput | app/dashboard/recipes/page.jsx:570-647 | each input writes only its own form field, the quantity as typed text |
| Recipes.RecipesPage.constructor | app/dashboard/recipes/page.jsx:15-35 | no selection, nothing expanded, modal closed in create mode, no rows, the initial form |
| Recipes.RecipesPage.ClickSupplier | app/dashboard/recipes/page.jsx:234-236 | the selection becomes the card's id, or "" if that card was selected |
| Recipes.RecipesPage.ResetSupplier | app/dashboard/recipes/page.jsx:217 | the selection is cleared |
| Recipes.RecipesPage.ToggleExpand | app/dashboard/recipes/page.jsx:96-101 | only the given product's flag flips; every other flag is unchanged |
| Recipes.RecipesPage.OpenAddGlobal | app/dashboard/recipes/page.jsx:155-159 | create mode, initial form, modal open |
| Recipes.RecipesPage.OpenManage | app/dashboard/recipes/page.jsx:161-172 | manage mode for the group's product with its lines as rows |
| Recipes.RecipesPage.OpenEditQty | app/dashboard/recipes/page.jsx:174-179 | edit-quantity mode for the line; the form is the initial form with the line's quantity |
| Recipes.RecipesPage.ChangeInput | app/dashboard/recipes/page.jsx:570-647 | the form becomes the input's update of the old form |
| Recipes.RecipesPage.CloseModal | app/dashboard/recipes/page.jsx:654 | the modal is closed |
| Recipes.RecipesPage.ChangeRow | app/dashboard/recipes/page.jsx:182-186 | only the named field of the row at index changes; length and all other rows are kept |
| Recipes.RecipesPage.AddRow | app/dashboard/recipes/page.jsx:187-192 | exactly one row ("" , quantity 1) is appended |
| Recipes.RecipesPage.RemoveRow | app/dashboard/recipes/page.jsx:193-197 | splice(index, 1): one row shorter with the others in order, or unchanged past the end |
| Recipes.RecipesPage.Submit | app/dashboard/recipes/page.jsx:104-141 | per mode: replace(BulkReplace), update(id, Number(quantity)) or create one line; success closes the modal and, in manage mode, expands the product; failure changes nothing |
| Avatar.InitialsAsWritten | app/dashboard/recipes/page.jsx:38-43 | getInitials as written; "" gives "?"; it throws (None) only for a name starting with a blank |
| Avatar.BlankStartThrows | app/dashboard/recipes/page.jsx:40 | " " and "  x" make `NaN.toUpperCase` throw, where the corrected function gives "?" and "X" |
| Avatar.LeadingSpaceInitials | app/dashboard/recipes/page.jsx:38-43 | " b" yields "UNDEFINEDB", longer than two characters, where the corrected function gives "B" |
| Avatar.Initials | app/dashboard/recipes/page.jsx:38-43 | an empty or all-blank name gives "?"; otherwise no blank in the result, its first character is the upper-cased first letter, the second is the upper-cased start of the next word, or, for a one-word name, its second letter when it has one |
| Avatar.InitialsAgreeWithoutEmptyParts | app/dashboard/recipes/page.jsx:38-43 | for names without empty space-separated parts, the code as written and the corrected function agree |
| Avatar.AvatarIndex | app/dashboard/recipes/page.jsx:54 | the palette index is always in 0..5, and 0 for an empty id |
| Avatar.AvatarColor | app/dashboard/recipes/page.jsx:45-56 | the colour is always one of the palette's six, the first for an empty id |
| Catalog.FindGroup | app/dashboard/products/page.jsx:112 | the first recipe group with the product id, or none when no group has it |
| Catalog.ToggleSelection | app/dashboard/products/page.jsx:222 | the result is "" or the clicked id; for a non-empty id, it is that id iff it was not selected |
| Catalog.ToggleSelectionTwice | app/dashboard/recipes/page.jsx:234-236 | two clicks on one card restore the selection iff nothing or that card was selected |
| Transactions.FilteredProducts | app/dashboard/transactions/page.jsx:81-83 | no supplier gives []; otherwise exactly the products with that supplier_id, order kept |
| Transactions.RandomSuffix | app/dashboard/transactions/page.jsx:60 | Math.floor(Math.random() * 1000) is below 1000 |
| Transactions.RefId | app/dashboard/transactions/page.jsx:59-62 | the reference starts with "ORDER-" and continues with digits and dashes only |
| Transactions.RefIdFormat | app/dashboard/transactions/page.jsx:59-62 | the reference reads back as ORDER-, the timestamp, -, and a suffix below 1000 |
| Transactions.RefIdInjective | app/dashboard/transactions/page.jsx:59-62 | equal references mean equal timestamps and suffixes |
| Transactions.SubmitEnabled | app/dashboard/transactions/page.jsx:364-368 | enabled iff not submitting and both supplier and product are chosen |
| Transactions.OrderPage.constructor | app/dashboard/transactions/page.jsx:13-22 | empty form with a freshly generated reference, nothing submitting, no success modal |
| Transactions.OrderPage.SelectSupplier | app/dashboard/transactions/page.jsx:86-95 | the supplier toggles as a card click does and the product is always cleared; the frame keeps destination and reference |
| Transactions.OrderPage.ResetSupplier | app/dashboard/transactions/page.jsx:97-99 | supplier and product cleared; destination and reference untouched |
| Transactions.OrderPage.ChooseProduct | app/dashboard/transactions/page.jsx:266-267 | the product field is set |
| Transactions.OrderPage.EnterDestination | app/dashboard/transactions/page.jsx:316-317 | the destination field is set |
| Transactions.OrderPage.GenerateRefId | app/dashboard/transactions/page.jsx:59-62 | only the reference changes, to the generated one |
| Transactions.OrderPage.CanSubmit | app/dashboard/transactions/page.jsx:364-368 | the page's button is enabled iff not submitting and both supplier and product are chosen |
| Transactions.OrderPage.Submit | app/dashboard/transactions/page.jsx:101-123 | no supplier: nothing sent, nothing changes; otherwise the form is sent; success clears product and destination only; failure keeps the form |
| Transactions.OrderPage.CloseSuccessModal | app/dashboard/transactions/page.jsx:125-129 | modal closed, data cleared, a new reference generated |
| Transactions.EnabledSubmitIsSent | app/dashboard/transactions/page.jsx:103-104 | an enabled button always passes the handler's supplier guard |
| Products.FilteredProducts | app/dashboard/products/page.jsx:110-121 | no supplier gives []; a product is kept iff its first recipe group has a line whose supplier product belongs to the supplier; order kept |
| Products.SuppliedBy | app/dashboard/products/page.jsx:115-118 | true iff the first supplier product with the id exists and belongs to the supplier |
| Products.UsesSupplier | app/dashboard/products/page.jsx:112-119 | true iff the first recipe group exists and one of its lines resolves to the supplier; so never for a missing or empty group |
| Products.NoRecipeNotShown | app/dashboard/products/page.jsx:112-113 | products with no recipe group, or an empty first group, are never shown |
| Products.FilterIgnoresProductSupplier | app/dashboard/products/page.jsx:110-121 | the filter ignores product.supplier_id: an own product without a recipe is hidden, another supplier's product built from the selection's items is shown |
| Products.IsAdmin | app/dashboard/products/page.jsx:107 | admin iff the role is loaded and equals "Admin" |
| Products.CanAdd | app/dashboard/products/page.jsx:292 | the add button shows iff admin and a supplier is selected |
| Products.AddedProductHasSupplier | app/dashboard/products/page.jsx:137-142 | a create reached through the shown button carries the selected, non-empty supplier id and otherwise the update payload |
| Products.SetInput | app/dashboard/products/page.jsx:437-500 | each input writes only its own field, number boxes as typed text |
| Products.CreatePayload | app/dashboard/products/page.jsx:127-142 | the converted form plus supplier_id set to the selected supplier |
| Products.UpdatePayload | app/dashboard/products/page.jsx:127-137 | the name as typed; denom, price and qty through Number(); no supplier_id; status true iff the form status is "true" or true |
| Products.EditForm | app/dashboard/products/page.jsx:171-182 | the name copied; each amount reads back as the product's number; the status is "true" or "false" and converts back to the product's |
| Products.EditRoundTrip | app/dashboard/products/page.jsx:171-182 | opening a product for edit and saving unchanged sends its own name, amounts and status |
| Products.ProductsPage.constructor | app/dashboard/products/page.jsx:15-33 | no role, no selection, modal closed, initial form |
| Products.ProductsPage.LoadRole | app/dashboard/products/page.jsx:93 | the role becomes the profile's role name |
| Products.ProductsPage.ClickSupplier | app/dashboard/products/page.jsx:222 | the selection toggles as a card click does |
| Products.ProductsPage.ResetSupplier | app/dashboard/products/page.jsx:204 | the selection is cleared |
| Products.ProductsPage.OpenAdd | app/dashboard/products/page.jsx:165-169 | create mode, initial form, modal open |
| Products.ProductsPage.OpenEdit | app/dashboard/products/page.jsx:171-182 | edit mode for the product, its fields in the form, status as "true"/"false" |
| Products.ProductsPage.ChangeInput | app/dashboard/products/page.jsx:437-500 | the form becomes the input's update of the old form |
| Products.ProductsPage.CloseModal | app/dashboard/products/page.jsx:518 | the modal is closed |
| Products.ProductsPage.Submit | app/dashboard/products/page.jsx:124-150 | update(currentId, payload) when editing, else create with the selected supplier; only success closes the modal |
| Layout.Visible | app/dashboard/layout.jsx:106-122 | only Admin and Customer see items; Admin every item except "Transaksi Baru"; Customer exactly "Dashboard", "Transaksi Baru" and "Products" |
| Layout.FilteredMenus | app/dashboard/layout.jsx:101-130 | no role (null or "") gives []; no returned group is empty |
| Layout.FilteredMenusShape | app/dashboard/layout.jsx:104-129 | returned titles are a subsequence of the base titles; each group keeps its title and shows a subsequence of its items, all visible to the role |
| Layout.TitlesOfSubseq | app/dashboard/layout.jsx:127-129 | dropping groups keeps the titles in order |
| Layout.FilteredMenusComplete | app/dashboard/layout.jsx:104-129 | every item the role may see appears in its group's returned entry |
| Layout.OtherRoleSeesNothing | app/dashboard/layout.jsx:124-129 | any role other than Admin and Customer gets no groups |
| Layout.FilteredPair | app/dashboard/layout.jsx:127-129 | two groups that both keep an item come back as both restricted groups, in order |
| Layout.AdminMainGroup | app/dashboard/layout.jsx:108-111 | Admin's first group is "Dashboard" alone |
| Layout.AdminDataGroup | app/dashboard/layout.jsx:108-111 | Admin keeps the whole data group |
| Layout.CustomerMainGroup | app/dashboard/layout.jsx:114-122 | Customer keeps the whole first group |
| Layout.CustomerHidesDataPages | app/dashboard/layout.jsx:114-122 | Customer sees none of Suppliers, Supplier Products, Product Recipes |
| Layout.CustomerDataGroup | app/dashboard/layout.jsx:114-122 | Customer's data group is "Products" alone |
| Layout.AdminBaseMenu | app/dashboard/layout.jsx:77-130 | Admin's menu: Dashboard, then the four data pages |
| Layout.CustomerBaseMenu | app/dashboard/layout.jsx:77-130 | Customer's menu: Dashboard and Transaksi Baru, then Products |
| Middleware.Route | middleware.jsx:3-31 | dashboard without token goes to "/"; "/" with a token goes to "/dashboard/products"; passes iff neither applies |
| Middleware.RedirectTargets | middleware.jsx:11-27 | the only targets are "/" (without a token) and "/dashboard/products" (with one) |
| Middleware.TokenOpensDashboard | middleware.jsx:11-17 | with a token no dashboard path is redirected |
| Middleware.NoRedirectLoop | middleware.jsx:11-30 | following a redirect with the same cookie reaches a page that passes |
| Users.WithId | app/dashboard/users/page.jsx:66 | the user carries the given id and the form's four fields |
| Users.SetField | app/dashboard/users/page.jsx:194-238 | each input writes only its own form field |
| Users.WithoutId | app/dashboard/users/page.jsx:57 | exactly the users with another id remain, in order |
| Users.NextId | app/dashboard/users/page.jsx:70 | 1 for an empty list, else the last id + 1; with increasing ids, greater than every id |
| Users.Created | app/dashboard/users/page.jsx:69-71 | one user appended with the next id; existing users unchanged |
| Users.Edited | app/dashboard/users/page.jsx:63-68 | same length and ids; users with currentId become the form under that id, all others unchanged |
| Users.InitialUsersIncreasing | app/dashboard/users/page.jsx:6-28 | the seeded ids 1, 2, 3 are strictly increasing |
| Users.IncreasingIdsUnique | app/dashboard/users/page.jsx:6-28 | strictly increasing ids are unique |
| Users.DeleteKeepsIncreasing | app/dashboard/users/page.jsx:57 | delete keeps ids strictly increasing |
| Users.CreateKeepsIncreasing | app/dashboard/users/page.jsx:70-71 | create keeps ids strictly increasing |
| Users.EditKeepsIncreasing | app/dashboard/users/page.jsx:64-68 | edit keeps ids strictly increasing |
| Users.EditTouchesOne | app/dashboard/users/page.jsx:64-68 | with unique ids, an edit replaces exactly the one user with that id |
| Users.UsersPage.constructor | app/dashboard/users/page.jsx:6-40 | the three seeded users, modal closed, initial form; ids increasing |
| Users.UsersPage.OpenAdd | app/dashboard/users/page.jsx:42-46 | create mode; form reset to role "Customer", status "Active" |
| Users.UsersPage.OpenEdit | app/dashboard/users/page.jsx:48-53 | edit mode for the user's id with its fields in the form |
| Users.UsersPage.ChangeField | app/dashboard/users/page.jsx:194-238 | the form becomes the input's update of the old form |
| Users.UsersPage.CloseModal | app/dashboard/users/page.jsx:249 | the modal is closed |
| Users.UsersPage.Delete | app/dashboard/users/page.jsx:55-59 | confirmed: users without that id; declined: unchanged; ids stay increasing |
| Users.UsersPage.Submit | app/dashboard/users/page.jsx:61-74 | edit replaces the current user, create appends under the next id; modal closed; ids stay increasing |
| Suppliers.Payload | app/dashboard/suppliers/page.jsx:42-45 | name, code and type pass through; status true iff "true" or true |
| Suppliers.EditForm | app/dashboard/suppliers/page.jsx:83-88 | name, code and type copied; the status is the text "true" or "false" and converts back to the supplier's |
| Suppliers.SetInput | app/dashboard/suppliers/page.jsx:212-263 | each input writes only its own field, the select as text |
| Suppliers.EditRoundTrip | app/dashboard/suppliers/page.jsx:83-88 | opening for edit and saving unchanged sends the supplier's own fields and status |
| Suppliers.InitialPayload | app/dashboard/suppliers/page.jsx:16 | an untouched new form submits "", "", "official", true |
| Suppliers.StatusSelectDecides | app/dashboard/suppliers/page.jsx:44 | after picking an option, the status sent is true iff the option is "true"; other fields kept |
| Suppliers.SuppliersPage.constructor | app/dashboard/suppliers/page.jsx:11-17 | modal closed, not editing, initial form |
| Suppliers.SuppliersPage.OpenAdd | app/dashboard/suppliers/page.jsx:73-77 | create mode, initial form, modal open |
| Suppliers.SuppliersPage.OpenEdit | app/dashboard/suppliers/page.jsx:79-90 | edit mode for the supplier with its fields, status as "true"/"false" |
| Suppliers.SuppliersPage.ChangeInput | app/dashboard/suppliers/page.jsx:212-263 | the form becomes the input's update of the old form |
| Suppliers.SuppliersPage.CloseModal | app/dashboard/suppliers/page.jsx:275 | the modal is closed |
| Suppliers.SuppliersPage.Submit | app/dashboard/suppliers/page.jsx:38-58 | update(currentId) when editing, else create; only success closes the modal |
| SupplierProducts.Payload | app/dashboard/suppliers/products/page.jsx:67-73 | ids and name pass through; denom, cost and price through Number(); status true iff "true" or true |
| SupplierProducts.EditForm | app/dashboard/suppliers/products/page.jsx:110-118 | ids and name copied; each amount reads back as the item's number; the status is "true" or "false" and converts back to the item's |
| SupplierProducts.SetInput | app/dashboard/suppliers/products/page.jsx:282-393 | each input writes only its own field, numbers as typed text |
| SupplierProducts.EditRoundTrip | app/dashboard/suppliers/products/page.jsx:110-118 | opening for edit and saving unchanged sends the item's six fields and its status |
| SupplierProducts.InitialPayload | app/dashboard/suppliers/products/page.jsx:18-26 | an untouched new form submits zero amounts and status true |
| SupplierProducts.TypedPriceSubmitted | app/dashboard/suppliers/products/page.jsx:71 | typing an integer into the price box submits that integer, nothing else changes |
| SupplierProducts.SupplierProductsPage.constructor | app/dashboard/suppliers/products/page.jsx:13-27 | modal closed, not editing, initial form |
| SupplierProducts.SupplierProductsPage.OpenAdd | app/dashboard/suppliers/products/page.jsx:101-105 | create mode, initial form, modal open |
| SupplierProducts.SupplierProductsPage.OpenEdit | app/dashboard/suppliers/products/page.jsx:107-120 | edit mode for the item with its six fields, status as "true"/"false" |
| SupplierProducts.SupplierProductsPage.ChangeInput | app/dashboard/suppliers/products/page.jsx:282-393 | the form becomes the input's update of the old form |
| SupplierProducts.SupplierProductsPage.CloseModal | app/dashboard/suppliers/products/page.jsx:404 | the modal is closed |
| SupplierProducts.SupplierProductsPage.Submit | app/dashboard/suppliers/products/page.jsx:63-86 | update(currentId) when editing, else create; only success closes the modal |
| FormValues.TypedIntegerRoundTrip | app/dashboard/suppliers/products/page.jsx:69-71 | Number() of an integer's decimal text is that integer |
| FormValues.StatusRoundTrip | app/dashboard/suppliers/page.jsx:87 | "true"/"false" of a boolean converts back to that boolean |
| FormValues.NumberOfText | app/dashboard/products/page.jsx:129-131 | "" is 0; digits read as their value; any other character after the first, or a non-digit first character other than a leading minus before digits, gives NaN |
| FormValues.ToNumber | app/dashboard/recipes/page.jsx:120 | a number loaded by an edit handler converts to itself; typed text converts as Number(text) |
| FormValues.StatusOf | app/dashboard/products/page.jsx:132 | only the text "true" or the boolean true submit as active |
| FormValues.StatusText | app/dashboard/products/page.jsx:179 | the status becomes the text "true" exactly for true, "false" otherwise |
| Flags.Toggle | app/dashboard/recipes/page.jsx:96-101 | the key's flag flips, a missing key reads false, every other key is kept |
| Flags.Raise | app/dashboard/recipes/page.jsx:117 | the key's flag is set, every other key is kept |
| Flags.ToggleTwice | app/components/Sidebar.jsx:20-22 | toggling a key twice restores every flag |
| Login.BuildPayload | app/login/page.jsx:26-32 | password always; an input with "@" is the email and there is no identifier, otherwise the identifier and no email |
| Login.PayloadCarriesInput | app/login/page.jsx:26-32 | exactly one of email and identifier is present, and it is the input |
| Login.PayloadInjective | app/login/page.jsx:26-32 | different inputs or passwords give different payloads |
| Login.LoginPage.constructor | app/login/page.jsx:12-18 | no role, empty input and password, not loading, no error |
| Login.LoginPage.SelectRole | app/login/page.jsx:146 | the chosen role is set |
| Login.LoginPage.EnterLoginInput | app/login/page.jsx:286 | the login input is set |
| Login.LoginPage.EnterPassword | app/login/page.jsx:316 | the password is set |
| Login.LoginPage.ChangeRole | app/login/page.jsx:206-210 | role null, error and password cleared; the frame keeps the login input |
| Login.LoginPage.Login | app/login/page.jsx:20-48 | the payload for the current input; the error is "" unless the call fails, then its message; loading ends off |
| Sidebar.InitialOpenMenus | app/components/Sidebar.jsx:13-15 | only "Suppliers", open iff the pathname starts with "/dashboard/suppliers" |
| Sidebar.IsActive | app/components/Sidebar.jsx:128 | active iff the pathname equals the href; a deeper path under the href is not active |
| Sidebar.IsChildActive | app/components/Sidebar.jsx:64-66 | true iff some child's href equals the pathname |
| Sidebar.Highlighted | app/components/Sidebar.jsx:62-128 | a leaf iff its href is the pathname; a parent iff a child is active or its submenu is open |
| Sidebar.SupplierPageOpensSubmenu | app/components/Sidebar.jsx:13-66 | on either supplier page the submenu starts open |
| Sidebar.DeeperPathOpensWithoutActiveChild | app/components/Sidebar.jsx:13-66 | below a supplier page the submenu opens though no child is active |
| Sidebar.AtMostOneChildActive | app/components/Sidebar.jsx:30-33 | at most one supplier child is active |
| Sidebar.SidebarState.constructor | app/components/Sidebar.jsx:13-18 | the initial open map for the pathname, logout modal closed |
| Sidebar.SidebarState.ToggleMenu | app/components/Sidebar.jsx:20-22 | only the key's flag flips; every other key reads as before |
| Sidebar.SidebarState.AskLogout | app/components/Sidebar.jsx:149 | the logout modal opens |
| Sidebar.SidebarState.CancelLogout | app/components/Sidebar.jsx:184 | the logout modal closes |

## Left out

- HTTP and `apiService` (services/api.jsx is not part of this model). Each call is a success or
  failure outcome passed in; responses are not parsed; `fetchData`/`fetchSuppliers` refetches are
  not modelled, so lists such as `recipes`, `products` and `suppliers` are function parameters.
- Deletes on the recipes, products, suppliers and supplier-products pages: each only forwards an
  id to the backend after `confirm`. The users page delete, which works in memory, is modelled.
- Cookies, `router.push`, the logout confirmation and token expiry: browser I/O. The middleware
  takes only whether the token cookie is present.
- Concurrency: the `Promise.all` fetches, stale responses and the `loading`/`isSubmitting` flags
  seen between the start and the end of an awaited call. Each handler runs to completion.
- Login.LoginPage.Login: the intermediate `loading = true`, `errorMsg = ""` state exists only
  while the call is pending; the model states the settled state.
- Number() beyond integer literals: whitespace, decimals, exponents, hex and "Infinity" read as
  NaN here; all amounts are integers.
- Avatar.AvatarIndex: takes the first character's code point, whereas `charCodeAt(0)` reads the
  first UTF-16 unit; they differ for characters outside the Basic Multilingual Plane.
- Avatar.Initials: `toUpperCase` is modelled for ASCII letters only.
- `Intl.NumberFormat` currency formatting and all rendering.
- `temp_id` of the manage rows, which is only a React key.
- HTML constraint validation on the form inputs: `required`, and `min="1"` on the manage rows'
  quantity (app/dashboard/recipes/page.jsx:534), which the browser checks before submitting.
- The Next.js `matcher` configuration of the middleware.
- app/page.jsx, app/register/page.jsx, app/dashboard/page.jsx and app/components/Modal.jsx are not
  part of this model.
- Transactions.RandomSuffix: `Math.random()` is taken as any multiple of 2^-53 below 1, which is
  how V8 produces it.

## Findings

| source | as written | input that shows it | evidently intended | confidence | as-written member | corrected member |
|---|---|---|---|---|---|---|
| app/dashboard/recipes/page.jsx:38-43 | `(parts[0][0] + parts[1][0]).toUpperCase()` over `name.split(" ")`, whose parts can be empty (the same code sits in the products and transactions pages) | a supplier named " b" (leading space) gets the initials "UNDEFINEDB"; a name " " or "  x" (two empty leading parts) adds `undefined + undefined` to NaN, and `NaN.toUpperCase()` throws a TypeError while the supplier cards render | the first letters of the first two words (a blank-only name shows "?") | not executed | Avatar.InitialsAsWritten, Avatar.LeadingSpaceInitials, Avatar.BlankStartThrows | Avatar.Initials |

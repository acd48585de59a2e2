/** The dashboard layout's role-based menu (`getFilteredMenus` over `baseMenuGroups`). */
module Layout {
  import opened Common
  import opened Seqs

  datatype MenuItem = MenuItem(name: string, href: string, icon: string)

  datatype MenuGroup = MenuGroup(title: string, items: seq<MenuItem>)

  const DashboardItem := MenuItem("Dashboard", "/dashboard", "📊")
  const NewTransactionItem := MenuItem("Transaksi Baru", "/dashboard/transactions", "🛒")
  const ProductsItem := MenuItem("Products", "/dashboard/products", "📦")
  const SuppliersItem := MenuItem("Suppliers", "/dashboard/suppliers", "🚚")
  const SupplierProductsItem := MenuItem("Supplier Products", "/dashboard/suppliers/products", "🏷️")
  const RecipesItem := MenuItem("Product Recipes", "/dashboard/recipes", "📜")

  const MainGroup := MenuGroup("Menu Utama", [DashboardItem, NewTransactionItem])
  const DataGroup := MenuGroup("Manajemen Data", [ProductsItem, SuppliersItem, SupplierProductsItem, RecipesItem])

  /** `baseMenuGroups`. */
  const BaseMenuGroups: seq<MenuGroup> := [MainGroup, DataGroup]

  const CustomerMenus: seq<string> := ["Dashboard", "Transaksi Baru", "Products"]

  /** The item filter: Admin sees all but "Transaksi Baru", Customer only its three, anyone else nothing. */
  function Visible(role: string, item: MenuItem): (visible: bool)
    ensures visible ==> role == "Admin" || role == "Customer"
    ensures role == "Admin" ==> (visible <==> item.name != "Transaksi Baru")
    ensures role == "Customer" ==>
              (visible <==> item.name == "Dashboard" || item.name == "Transaksi Baru" || item.name == "Products")
  {
    if role == "Admin" then item.name != "Transaksi Baru"
    else if role == "Customer" then item.name in CustomerMenus
    else false
  }

  function VisibleTo(role: string): MenuItem -> bool {
    (it: MenuItem) => Visible(role, it)
  }

  /** `{ ...group, items: filteredItems }`. */
  function Restrict(role: string, g: MenuGroup): MenuGroup {
    g.(items := Filter(VisibleTo(role), g.items))
  }

  function RestrictAll(role: string, groups: seq<MenuGroup>): (r: seq<MenuGroup>)
    ensures |r| == |groups|
    ensures forall i :: 0 <= i < |groups| ==> r[i] == Restrict(role, groups[i])
  {
    seq(|groups|, i requires 0 <= i < |groups| => Restrict(role, groups[i]))
  }

  predicate NonEmpty(g: MenuGroup) { g.items != [] }

  /** `getFilteredMenus`: nothing while the role is not loaded; else restricted, non-empty groups. */
  function FilteredMenus(role: Option<string>, groups: seq<MenuGroup>): (r: seq<MenuGroup>)
    ensures role.None? || role.value == "" ==> r == []
    ensures forall g :: g in r ==> g.items != []
  {
    if role.None? || role.value == "" then []
    else Filter(NonEmpty, RestrictAll(role.value, groups))
  }

  function Titles(groups: seq<MenuGroup>): (ts: seq<string>)
    ensures |ts| == |groups|
    ensures forall i :: 0 <= i < |groups| ==> ts[i] == groups[i].title
  {
    seq(|groups|, i requires 0 <= i < |groups| => groups[i].title)
  }

  /** Dropping groups keeps the remaining titles a subsequence of the original titles. */
  lemma {:induction false} TitlesOfSubseq(a: seq<MenuGroup>, b: seq<MenuGroup>)
    requires Subseq(a, b)
    ensures Subseq(Titles(a), Titles(b))
    decreases |b|
  {
    if a != [] {
      assert Titles(b)[1..] == Titles(b[1..]);
      if a[0] == b[0] && Subseq(a[1..], b[1..]) {
        TitlesOfSubseq(a[1..], b[1..]);
        assert Titles(a)[1..] == Titles(a[1..]);
      } else {
        TitlesOfSubseq(a, b[1..]);
      }
    }
  }

  /**
   * Every returned group is an original group, same title, whose items are an order-preserving
   * subsequence of the original's, all visible to the role; and the groups keep their order.
   */
  lemma FilteredMenusShape(role: Option<string>, groups: seq<MenuGroup>)
    ensures Subseq(Titles(FilteredMenus(role, groups)), Titles(groups))
    ensures forall g :: g in FilteredMenus(role, groups) ==>
              exists i :: 0 <= i < |groups| && g.title == groups[i].title && Subseq(g.items, groups[i].items) &&
                          forall it :: it in g.items ==> Visible(role.value, it)
  {
    var r := FilteredMenus(role, groups);
    if role.Some? && role.value != "" {
      var all := RestrictAll(role.value, groups);
      assert Subseq(Titles(all), Titles(groups)) by {
        assert Titles(all) == Titles(groups);
        FilterAll((t: string) => true, Titles(groups));
      }
      TitlesOfSubseq(r, all);
      SubseqTrans(Titles(r), Titles(all), Titles(groups));
      forall g | g in r
        ensures exists i :: 0 <= i < |groups| && g.title == groups[i].title && Subseq(g.items, groups[i].items) &&
                            forall it :: it in g.items ==> Visible(role.value, it)
      {
        var i :| 0 <= i < |all| && all[i] == g;
        assert g == Restrict(role.value, groups[i]);
      }
    }
  }

  /** A subsequence of a subsequence is a subsequence. */
  lemma {:induction false} SubseqTrans<T>(a: seq<T>, b: seq<T>, c: seq<T>)
    requires Subseq(a, b) && Subseq(b, c)
    ensures Subseq(a, c)
    decreases |c|
  {
    if a != [] {
      if b[0] == c[0] && Subseq(b[1..], c[1..]) {
        if a[0] == b[0] && Subseq(a[1..], b[1..]) {
          SubseqTrans(a[1..], b[1..], c[1..]);
        } else {
          SubseqTrans(a, b[1..], c[1..]);
        }
      } else {
        SubseqTrans(a, b, c[1..]);
      }
    }
  }

  /** Every item the role may see, in any group, appears in that group's returned entry. */
  lemma FilteredMenusComplete(role: string, groups: seq<MenuGroup>, i: nat, it: MenuItem)
    requires role != "" && i < |groups| && it in groups[i].items && Visible(role, it)
    ensures exists g :: g in FilteredMenus(Some(role), groups) && g.title == groups[i].title && it in g.items
  {
    var all := RestrictAll(role, groups);
    assert all[i] in all;
    assert it in all[i].items;
    assert all[i] in FilteredMenus(Some(role), groups);
  }

  /** Any role other than Admin and Customer gets no items, hence no groups. */
  lemma OtherRoleSeesNothing(role: string, groups: seq<MenuGroup>)
    requires role != "Admin" && role != "Customer"
    ensures FilteredMenus(Some(role), groups) == []
  {
    if role != "" {
      var all := RestrictAll(role, groups);
      forall i | 0 <= i < |groups| ensures all[i].items == [] {
        FilterNone(VisibleTo(role), groups[i].items);
      }
      FilterNone(NonEmpty, all);
    }
  }

  /** With both groups keeping an item, the result is the two restricted groups in order. */
  lemma FilteredPair(role: string, a: MenuGroup, b: MenuGroup)
    requires role != "" && Restrict(role, a).items != [] && Restrict(role, b).items != []
    ensures FilteredMenus(Some(role), [a, b]) == [Restrict(role, a), Restrict(role, b)]
  {
    var all := RestrictAll(role, [a, b]);
    assert all == [Restrict(role, a), Restrict(role, b)];
    FilterAll(NonEmpty, all);
  }

  lemma AdminMainGroup()
    ensures Restrict("Admin", MainGroup) == MenuGroup("Menu Utama", [DashboardItem])
  {
    var p := VisibleTo("Admin");
    FilterCons(p, DashboardItem, [NewTransactionItem]);
    FilterCons(p, NewTransactionItem, []);
    assert [DashboardItem] + [NewTransactionItem] == MainGroup.items;
  }

  lemma AdminDataGroup()
    ensures Restrict("Admin", DataGroup) == DataGroup
  {
    FilterAll(VisibleTo("Admin"), DataGroup.items);
  }

  lemma CustomerMainGroup()
    ensures Restrict("Customer", MainGroup) == MainGroup
  {
    FilterAll(VisibleTo("Customer"), MainGroup.items);
  }

  lemma CustomerHidesDataPages()
    ensures !Visible("Customer", SuppliersItem)
    ensures !Visible("Customer", SupplierProductsItem)
    ensures !Visible("Customer", RecipesItem)
  {
  }

  lemma CustomerDataGroup()
    ensures Restrict("Customer", DataGroup) == MenuGroup("Manajemen Data", [ProductsItem])
  {
    var p := VisibleTo("Customer");
    var rest := [SuppliersItem, SupplierProductsItem, RecipesItem];
    assert Filter(p, rest) == [] by {
      CustomerHidesDataPages();
      FilterNone(p, rest);
    }
    assert Filter(p, [ProductsItem] + rest) == [ProductsItem] + Filter(p, rest) by {
      FilterCons(p, ProductsItem, rest);
    }
    assert DataGroup.items == [ProductsItem] + rest;
  }

  /** Admin gets "Dashboard" alone in the first group and the whole second group. */
  lemma AdminBaseMenu()
    ensures FilteredMenus(Some("Admin"), BaseMenuGroups) ==
            [MenuGroup("Menu Utama", [DashboardItem]), DataGroup]
  {
    AdminMainGroup();
    AdminDataGroup();
    FilteredPair("Admin", MainGroup, DataGroup);
  }

  /** Customer gets the whole first group and "Products" alone in the second. */
  lemma CustomerBaseMenu()
    ensures FilteredMenus(Some("Customer"), BaseMenuGroups) ==
            [MainGroup, MenuGroup("Manajemen Data", [ProductsItem])]
  {
    CustomerMainGroup();
    CustomerDataGroup();
    FilteredPair("Customer", MainGroup, DataGroup);
  }
}

/** The sidebar: its menu, which submenus are open, and which entry is highlighted. */
module Sidebar {
  import opened Text
  import opened Flags

  datatype Link = Link(name: string, href: string)

  /** A menu entry: a plain link, or a parent whose children form a submenu. */
  datatype Menu =
    | Leaf(name: string, href: string, icon: string)
    | Parent(name: string, icon: string, children: seq<Link>)

  const SuppliersPrefix := "/dashboard/suppliers"

  const SupplierLinks: seq<Link> := [
    Link("Data Supplier", "/dashboard/suppliers"),
    Link("Supplier Product", "/dashboard/suppliers/products")
  ]

  const Menus: seq<Menu> := [
    Leaf("Products", "/dashboard/products", "📦"),
    Parent("Suppliers", "🚚", SupplierLinks),
    Leaf("Transaksi Baru", "/dashboard/transactions", "🛒")
  ]

  /** The first `openMenus`: only "Suppliers", open when the page lies under its prefix. */
  function InitialOpenMenus(pathname: string): (m: map<string, bool>)
    ensures m.Keys == {"Suppliers"}
    ensures Flag(m, "Suppliers") <==> StartsWith(pathname, SuppliersPrefix)
  {
    map["Suppliers" := StartsWith(pathname, SuppliersPrefix)]
  }

  /** `pathname === link.href`: a link is active only on an exact match. */
  function IsActive(href: string, pathname: string): (active: bool)
    ensures active <==> pathname == href
    ensures StartsWith(pathname, href) && |pathname| > |href| ==> !active
  {
    pathname == href
  }

  /** `children.some((child) => pathname === child.href)`. */
  function IsChildActive(children: seq<Link>, pathname: string): (b: bool)
    ensures b <==> exists c :: c in children && IsActive(c.href, pathname)
  {
    if children == [] then false
    else IsActive(children[0].href, pathname) || IsChildActive(children[1..], pathname)
  }

  /** A parent is highlighted when a child is active or its submenu is open; a leaf when it is active. */
  function Highlighted(menu: Menu, openMenus: map<string, bool>, pathname: string): (b: bool)
    ensures menu.Leaf? ==> (b <==> pathname == menu.href)
    ensures menu.Parent? ==>
              (b <==> Flag(openMenus, menu.name) || exists c :: c in menu.children && c.href == pathname)
  {
    match menu
    case Leaf(_, href, _) => IsActive(href, pathname)
    case Parent(name, _, children) => IsChildActive(children, pathname) || Flag(openMenus, name)
  }

  /** Arriving on either supplier page shows the Suppliers submenu open. */
  lemma SupplierPageOpensSubmenu(pathname: string)
    requires IsChildActive(SupplierLinks, pathname)
    ensures Flag(InitialOpenMenus(pathname), "Suppliers")
  {
    var c :| c in SupplierLinks && IsActive(c.href, pathname);
    assert pathname == SupplierLinks[0].href || pathname == SupplierLinks[1].href;
    assert pathname[..|SuppliersPrefix|] == SuppliersPrefix;
  }

  /** Below a supplier page (say an id appended) the submenu opens but no child is active. */
  lemma DeeperPathOpensWithoutActiveChild()
    ensures Flag(InitialOpenMenus("/dashboard/suppliers/products/7"), "Suppliers")
    ensures !IsChildActive(SupplierLinks, "/dashboard/suppliers/products/7")
  {
    var p := "/dashboard/suppliers/products/7";
    assert p[..|SuppliersPrefix|] == SuppliersPrefix;
    assert |p| != |SupplierLinks[0].href| && |p| != |SupplierLinks[1].href|;
  }

  /** At most one supplier child is active, since their hrefs differ. */
  lemma AtMostOneChildActive(pathname: string)
    ensures !(IsActive(SupplierLinks[0].href, pathname) && IsActive(SupplierLinks[1].href, pathname))
  {
    assert |SupplierLinks[0].href| != |SupplierLinks[1].href|;
  }

  class SidebarState {
    var openMenus: map<string, bool>
    var isLogoutModalOpen: bool

    constructor (pathname: string)
      ensures openMenus == InitialOpenMenus(pathname) && !isLogoutModalOpen
    {
      openMenus := InitialOpenMenus(pathname);
      isLogoutModalOpen := false;
    }

    /** `toggleMenu(key)`: flips that key's flag and no other. */
    method ToggleMenu(key: string)
      modifies this`openMenus
      ensures openMenus == Toggle(old(openMenus), key)
      ensures Flag(openMenus, key) == !Flag(old(openMenus), key)
      ensures forall j :: j != key ==> Flag(openMenus, j) == Flag(old(openMenus), j)
    {
      openMenus := Toggle(openMenus, key);
    }

    /** The Logout button. */
    method AskLogout()
      modifies this`isLogoutModalOpen
      ensures isLogoutModalOpen
    {
      isLogoutModalOpen := true;
    }

    /** "Batal" or the modal's close control. */
    method CancelLogout()
      modifies this`isLogoutModalOpen
      ensures !isLogoutModalOpen
    {
      isLogoutModalOpen := false;
    }
  }
}

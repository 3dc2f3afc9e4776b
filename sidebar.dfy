/**
 * The navigation sidebar (`frontend/src/components/navigation/Sidebar.tsx`):
 * which entry is highlighted for the current path, which menu groups are
 * expanded, and what following an entry does to the drawer.
 */
module Sidebar {
  import opened Text

  /** The titles of the four groups that have children, in menu order. */
  const GroupTitles: seq<string> := ["Inventory", "CRM", "Accounting", "HR"]

  /** The key a group's expanded flag is stored under: its title in lower case. */
  function MenuKey(title: string): (k: string)
    ensures |k| == |title|
  {
    Lower(title)
  }

  /** The expanded flags before any toggle. */
  function InitialOpenMenus(): map<string, bool>
  {
    map["inventory" := true, "crm" := true, "accounting" := false, "hr" := false]
  }

  /** `openMenus[key]`, where a missing key reads as `undefined`, which is falsy. */
  predicate IsOpen(menus: map<string, bool>, key: string)
  {
    key in menus && menus[key]
  }

  /**
   * Each group's key is present in the initial flags, and exactly the
   * inventory and CRM groups start expanded.
   */
  lemma InitialMenusSpec()
    ensures forall i :: 0 <= i < |GroupTitles| ==> MenuKey(GroupTitles[i]) in InitialOpenMenus()
    ensures InitialOpenMenus().Keys == {MenuKey("Inventory"), MenuKey("CRM"), MenuKey("Accounting"), MenuKey("HR")}
    ensures IsOpen(InitialOpenMenus(), MenuKey("Inventory")) && IsOpen(InitialOpenMenus(), MenuKey("CRM"))
    ensures !IsOpen(InitialOpenMenus(), MenuKey("Accounting")) && !IsOpen(InitialOpenMenus(), MenuKey("HR"))
  {
    assert MenuKey("Inventory") == "inventory";
    assert MenuKey("CRM") == "crm";
    assert MenuKey("Accounting") == "accounting";
    assert MenuKey("HR") == "hr";
  }

  /** `{...prev, [menu]: !prev[menu]}`. */
  function MenuToggled(menus: map<string, bool>, menu: string): map<string, bool>
  {
    menus[menu := !IsOpen(menus, menu)]
  }

  /**
   * A toggle flips the named group and leaves every other key as it was;
   * toggling twice restores every group's openness, and restores the flags
   * exactly when the key was already present.
   */
  lemma MenuToggledSpec(menus: map<string, bool>, menu: string)
    ensures menu in MenuToggled(menus, menu)
    ensures IsOpen(MenuToggled(menus, menu), menu) == !IsOpen(menus, menu)
    ensures MenuToggled(menus, menu).Keys == menus.Keys + {menu}
    ensures forall k :: k != menu && k in menus ==> MenuToggled(menus, menu)[k] == menus[k]
    ensures forall k :: IsOpen(MenuToggled(MenuToggled(menus, menu), menu), k) == IsOpen(menus, k)
    ensures menu in menus ==> MenuToggled(MenuToggled(menus, menu), menu) == menus
  {
  }

  /**
   * `isActive(path)` for the current `pathname`: the dashboard path only on
   * itself, any other path on every pathname that starts with it.
   */
  predicate IsActive(path: string, pathname: string)
  {
    (path == "/" && pathname == "/") || (path != "/" && StartsWith(pathname, path))
  }

  /**
   * "/" is active exactly on "/"; any other path is active exactly when
   * the pathname is that path followed by anything, with no check for a
   * segment boundary, so "/crm/leads" is active on "/crm/leadsX"; an entry
   * without a path, rendered as the empty path, is active everywhere.
   */
  lemma IsActiveSpec(path: string, pathname: string)
    ensures path == "/" ==> (IsActive(path, pathname) <==> pathname == "/")
    ensures path != "/" ==> (IsActive(path, pathname) <==> exists rest :: pathname == path + rest)
    ensures IsActive("/crm/leads", "/crm/leadsX")
    ensures IsActive("", pathname)
  {
    if path != "/" && StartsWith(pathname, path) {
      assert pathname == path + pathname[|path|..];
    }
    assert "/crm/leadsX" == "/crm/leads" + "X";
  }

  /** A navigation's effects: go to the path, then close the drawer. */
  datatype Effect = NavigateTo(path: string) | CloseDrawer

  /** `handleNavigation(path)`. */
  function HandleNavigation(path: string, isMobile: bool): (effects: seq<Effect>)
    ensures |effects| >= 1 && effects[0] == NavigateTo(path)
    ensures CloseDrawer in effects <==> isMobile
  {
    if isMobile then [NavigateTo(path), CloseDrawer] else [NavigateTo(path)]
  }

  /** The sidebar's own state: the expanded flag of each menu group. */
  class SidebarState {
    var openMenus: map<string, bool>

    constructor ()
      ensures openMenus == InitialOpenMenus()
    {
      openMenus := InitialOpenMenus();
    }

    /** `handleMenuToggle(menu)`. */
    method HandleMenuToggle(menu: string)
      modifies this
      ensures openMenus == MenuToggled(old(openMenus), menu)
    {
      var prev := openMenus;
      openMenus := prev[menu := !(menu in prev && prev[menu])];
    }
  }
}

/** The user's bottom navigation bar (ui/components/BottomNavBar.kt): its
    three items, which one is selected for the current route, and the
    navigation a click asks for. */
module BottomNavBar {
  import opened Text
  import opened Json
  import opened HangOutApp

  datatype NavItem = NavItem(title: string, route: string)

  /** The items as written: Home, Calendar, Profile. */
  const Items: seq<NavItem> := [
    NavItem("Inicio", "inicio_usuario_generico"),
    NavItem("Calendario", "eventos_actividades"),
    NavItem("Perfil", "mi_perfil")
  ]

  /** `currentRoute?.startsWith(item.route) == true`. */
  function Selected(current: Option<string>, item: NavItem): (r: bool)
    ensures current.None? ==> !r
    ensures current.Some? ==> (r <==> StartsWith(current.value, item.route))
  {
    current.Some? && StartsWith(current.value, item.route)
  }

  /** `navigate(route) { popUpTo(start) { saveState = true };
      launchSingleTop = true; restoreState = true }`. */
  datatype NavRequest = NavRequest(route: string, popUpTo: string, saveState: bool,
                                   singleTop: bool, restoreState: bool)

  /** A click navigates only when its item is not selected. */
  function OnClick(current: Option<string>, item: NavItem): (r: Option<NavRequest>)
    ensures r.Some? <==> !Selected(current, item)
    ensures r.Some? ==> r.value.route == item.route && r.value.popUpTo == StartDestination
    ensures r.Some? ==> r.value.saveState && r.value.singleTop && r.value.restoreState
  {
    if Selected(current, item) then None
    else Some(NavRequest(item.route, StartDestination, true, true, true))
  }

  /** Without a current route no item is selected, so every click
      navigates. */
  lemma NoRouteNoSelection()
    ensures forall i :: 0 <= i < |Items| ==> !Selected(None, Items[i]) && OnClick(None, Items[i]).Some?
  {
  }

  /** No item's route begins with another's, so on an item's own route
      that item, and only it, is selected, and clicking it again does
      nothing. */
  lemma OwnRouteSelectsItself(i: int)
    requires 0 <= i < |Items|
    ensures forall j :: 0 <= j < |Items| ==> (Selected(Some(Items[i].route), Items[j]) <==> i == j)
    ensures OnClick(Some(Items[i].route), Items[i]).None?
  {
    assert Items[0].route[0] == 'i' && Items[1].route[0] == 'e' && Items[2].route[0] == 'm';
    forall j | 0 <= j < |Items| ensures Selected(Some(Items[i].route), Items[j]) <==> i == j {
      if i == j {
        assert Items[i].route[..|Items[i].route|] == Items[i].route;
      }
    }
  }

  /** As written, the profile item leads to "mi_perfil", which the app's
      navigation graph does not register (its profile screen is
      "datos_perfil"), while the other two items' routes are registered. */
  lemma ProfileRouteUnregistered()
    ensures Items[0].route in Routes && Items[1].route in Routes
    ensures Items[2].route !in Routes
  {
    assert Routes[3] == Items[0].route && Routes[8] == Items[1].route;
    MiPerfilUnregistered();
  }

  lemma MiPerfilUnregistered()
    ensures "mi_perfil" !in Routes
  {
  }

  /** The items with the profile item pointing at the registered profile
      screen. */
  const ItemsFixed: seq<NavItem> := [
    NavItem("Inicio", "inicio_usuario_generico"),
    NavItem("Calendario", "eventos_actividades"),
    NavItem("Perfil", "datos_perfil")
  ]

  /** Every fixed item leads to a registered destination, and on an
      item's own route exactly that item is selected. */
  lemma FixedItemsRegistered(i: int)
    requires 0 <= i < |ItemsFixed|
    ensures ItemsFixed[i].route in Routes
    ensures forall j :: 0 <= j < |ItemsFixed| ==> (Selected(Some(ItemsFixed[i].route), ItemsFixed[j]) <==> i == j)
  {
    assert Routes[3] == ItemsFixed[0].route && Routes[8] == ItemsFixed[1].route && Routes[9] == ItemsFixed[2].route;
    assert ItemsFixed[0].route[0] == 'i' && ItemsFixed[1].route[0] == 'e' && ItemsFixed[2].route[0] == 'd';
    forall j | 0 <= j < |ItemsFixed| ensures Selected(Some(ItemsFixed[i].route), ItemsFixed[j]) <==> i == j {
      if i == j {
        assert ItemsFixed[i].route[..|ItemsFixed[i].route|] == ItemsFixed[i].route;
      }
    }
  }
}

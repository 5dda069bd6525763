/** The app shell (ui/HangOutApp.kt): the navigation graph's routes, the
    rule that hides the bottom bar, and the defaults the graph gives to
    missing route arguments. A destination's `route` is the template it was
    registered with, placeholders included. */
module HangOutApp {
  import opened Text
  import opened Json
  import opened Forms

  const StartDestination: string := "inicio"

  /** The registered destinations, in the order of the graph. */
  const Routes: seq<string> := [
    "inicio", "registro", "login", "inicio_usuario_generico",
    "inicio_usuario_establecimiento/{id}",
    "datos_oferta", "datos_evento", "datos_evento2", "eventos_actividades",
    "datos_perfil", "editar_perfil", "crear_actividad", "datos_actividad",
    "crearReview/{establecimientoId}/{initialRating}",
    "inicio_admin_establecimiento", "crear_establecimiento",
    "admin_establecimiento_detalle?data={data}",
    "crear_oferta/{establecimientoId}", "crear_evento/{establecimientoId}",
    "datos_oferta_admin/{id}", "datos_evento_admin/{id}",
    "editar_establecimiento/{id}", "editar_oferta/{id}", "editar_evento/{id}"
  ]

  /** `routesHideExact`. */
  const HiddenExact: set<string> := {
    "inicio", "registro", "login", "inicio_admin_establecimiento", "crear_establecimiento",
    "datos_oferta_admin", "crear_evento", "crear_oferta", "datos_evento_admin",
    "editar_evento", "editar_oferta", "editar_establecimiento"
  }

  /** `routesHidePrefix`. */
  const HiddenPrefixes: seq<string> := ["admin_establecimiento_detalle"]

  predicate HasHiddenPrefix(route: string) {
    exists i :: 0 <= i < |HiddenPrefixes| && StartsWith(route, HiddenPrefixes[i])
  }

  /** `hideBottomBar` as written: the current route, compared whole with
      the exact names, or by prefix. */
  function HideBottomBar(current: Option<string>): (r: bool)
    ensures current.None? ==> !r
    ensures current.Some? ==> (r <==> current.value in HiddenExact || HasHiddenPrefix(current.value))
  {
    current.Some? && (current.value in HiddenExact || HasHiddenPrefix(current.value))
  }

  /** The start screen and the login and sign-up screens hide the bar. */
  lemma StartHidesBar()
    ensures StartDestination in Routes
    ensures HideBottomBar(Some(StartDestination))
    ensures HideBottomBar(Some("login")) && HideBottomBar(Some("registro"))
  {
  }

  /** The admin detail route hides the bar through its prefix, whatever its
      argument. */
  lemma DetailHidesBar(query: string)
    ensures HideBottomBar(Some("admin_establecimiento_detalle" + query))
  {
    var r := "admin_establecimiento_detalle" + query;
    assert r[..|HiddenPrefixes[0]|] == HiddenPrefixes[0];
  }

  /** The user's screens keep the bar. */
  lemma UserScreensShowBar()
    ensures !HideBottomBar(Some("inicio_usuario_generico"))
    ensures !HideBottomBar(Some("eventos_actividades"))
    ensures !HideBottomBar(Some("datos_perfil"))
  {
    assert !StartsWith("inicio_usuario_generico", HiddenPrefixes[0]);
    assert !StartsWith("eventos_actividades", HiddenPrefixes[0]);
    assert !StartsWith("datos_perfil", HiddenPrefixes[0]);
  }

  /** The name of a route template: the text before its first `/` or `?`. */
  function RouteName(route: string): (r: string)
    ensures |r| <= |route| && r == route[..|r|]
    ensures forall k :: 0 <= k < |r| ==> r[k] != '/' && r[k] != '?'
    ensures |r| < |route| ==> route[|r|] == '/' || route[|r|] == '?'
  {
    var i := IndexOfAnyFrom(route, {'/', '?'}, 0);
    if i < 0 then route else route[..i]
  }

  lemma RouteNameOf(name: string, sep: char, rest: string)
    requires forall k :: 0 <= k < |name| ==> name[k] != '/' && name[k] != '?'
    requires sep == '/' || sep == '?'
    ensures RouteName(name + [sep] + rest) == name
  {
    var s := name + [sep] + rest;
    assert s[|name|] == sep;
    assert forall k :: 0 <= k < |name| ==> s[k] == name[k];
    assert s[..|name|] == name;
  }

  /** `hideBottomBar` with each route compared by its name, as the exact
      names evidently intend. */
  function HideBottomBarFixed(current: Option<string>): (r: bool)
    ensures current.None? ==> !r
    ensures current.Some? ==> (r <==> RouteName(current.value) in HiddenExact || HasHiddenPrefix(current.value))
  {
    current.Some? && (RouteName(current.value) in HiddenExact || HasHiddenPrefix(current.value))
  }

  /** The admin screens registered with an argument (the last seven
      routes), as name and placeholder. */
  const AdminTemplates: seq<(string, string)> := [
    ("crear_oferta", "{establecimientoId}"), ("crear_evento", "{establecimientoId}"),
    ("datos_oferta_admin", "{id}"), ("datos_evento_admin", "{id}"),
    ("editar_establecimiento", "{id}"), ("editar_oferta", "{id}"), ("editar_evento", "{id}")
  ]

  /** A route that does not start with `a` and ends with `}` (an unfilled
      template) matches neither an exact name nor the hidden prefix. */
  lemma TemplateShapeShowsBar(t: string)
    requires |t| > 0 && t[0] != 'a' && t[|t| - 1] == '}'
    ensures !HideBottomBar(Some(t))
  {
    assert t !in HiddenExact;
    assert !StartsWith(t, HiddenPrefixes[0]) by {
      assert |HiddenPrefixes[0]| > 0 && HiddenPrefixes[0][0] == 'a';
    }
  }

  /** The names of the seven templates are listed as hidden, but none of
      them is registered on its own. */
  lemma AdminTemplateNames()
    ensures forall i :: 0 <= i < |AdminTemplates| ==> AdminTemplates[i].0 in HiddenExact
    ensures forall i :: 0 <= i < |AdminTemplates| ==> AdminTemplates[i].0 !in Routes
  {
    AdminNamesHidden();
    AdminNamesUnregistered();
  }

  /** Every admin template's name is in the exact set. */
  lemma AdminNamesHidden()
    ensures forall i :: 0 <= i < |AdminTemplates| ==> AdminTemplates[i].0 in HiddenExact
  {
  }

  /** No admin template's name is registered on its own. */
  lemma AdminNamesUnregistered()
    ensures forall i :: 0 <= i < |AdminTemplates| ==> AdminTemplates[i].0 !in Routes
  {
  }

  /** As written, the seven admin screens registered with an argument keep
      the bar: their names are in the exact set, but the current route is
      the template with its argument, which no exact name equals. */
  lemma AdminTemplatesShowBar()
    ensures forall i :: 0 <= i < |AdminTemplates| ==> AdminTemplates[i].0 in HiddenExact
    ensures forall i :: 0 <= i < |AdminTemplates| ==> AdminTemplates[i].0 !in Routes
    ensures forall i :: 0 <= i < |AdminTemplates| ==>
      !HideBottomBar(Some(AdminTemplates[i].0 + "/" + AdminTemplates[i].1))
  {
    AdminTemplateNames();
    forall i | 0 <= i < |AdminTemplates|
      ensures !HideBottomBar(Some(AdminTemplates[i].0 + "/" + AdminTemplates[i].1))
    {
      var (name, arg) := AdminTemplates[i];
      var t := name + "/" + arg;
      assert t[0] == name[0] && name[0] != 'a';
      assert t[|t| - 1] == arg[|arg| - 1] == '}';
      TemplateShapeShowsBar(t);
    }
  }

  /** Compared by name, those seven screens hide the bar. */
  lemma FixedHidesAdminTemplates()
    ensures forall i :: 0 <= i < |AdminTemplates| ==>
      HideBottomBarFixed(Some(AdminTemplates[i].0 + "/" + AdminTemplates[i].1))
  {
    forall i | 0 <= i < |AdminTemplates|
      ensures HideBottomBarFixed(Some(AdminTemplates[i].0 + "/" + AdminTemplates[i].1))
    {
      var (name, arg) := AdminTemplates[i];
      assert forall k :: 0 <= k < |name| ==> name[k] != '/' && name[k] != '?';
      RouteNameOf(name, '/', arg);
      assert name + "/" + arg == name + ['/'] + arg;
    }
  }

  /** On a route without arguments the fixed rule decides as the written
      one does. */
  lemma FixedAgreesWithoutArguments(route: string)
    requires forall k :: 0 <= k < |route| ==> route[k] != '/' && route[k] != '?'
    ensures HideBottomBarFixed(Some(route)) == HideBottomBar(Some(route))
  {
    assert IndexOfAnyFrom(route, {'/', '?'}, 0) == -1;
  }

  // ----- route arguments -----

  /** A value in a destination's argument bundle. */
  datatype Arg = StrArg(s: string) | IntArg(n: int)

  type Bundle = map<string, Arg>

  /** `arguments?.getString(key) ?: ""`: "" without a bundle, without the
      key, or for a value that is not a string. */
  function StringArg(args: Option<Bundle>, key: string): (r: string)
    ensures args.Some? && key in args.value && args.value[key].StrArg? ==> r == args.value[key].s
    ensures args.None? || key !in args.value.Keys || !args.value[key].StrArg? ==> r == ""
  {
    if args.Some? && key in args.value && args.value[key].StrArg? then args.value[key].s else ""
  }

  /** `arguments?.getInt("initialRating") ?: 5`: 5 only without a bundle;
      `Bundle.getInt` itself answers 0 for a missing key. */
  function InitialRatingArg(args: Option<Bundle>): (r: int)
    ensures args.None? ==> r == 5
    ensures args.Some? && "initialRating" in args.value && args.value["initialRating"].IntArg? ==>
      r == args.value["initialRating"].n
    ensures args.Some? && ("initialRating" !in args.value || !args.value["initialRating"].IntArg?) ==> r == 0
  {
    if args.None? then 5
    else if "initialRating" in args.value && args.value["initialRating"].IntArg? then args.value["initialRating"].n
    else 0
  }

  /** The review screen, which coerces its initial rating into 1..5,
      starts at 5 stars without a bundle but at 1 star when the bundle
      lacks the rating, and at the route's rating when it is in 1..5. */
  lemma ReviewScreenStartRating(n: int)
    ensures CoerceIn(InitialRatingArg(None), 1, 5) == 5
    ensures CoerceIn(InitialRatingArg(Some(map[])), 1, 5) == 1
    ensures 1 <= n <= 5 ==> CoerceIn(InitialRatingArg(Some(map["initialRating" := IntArg(n)])), 1, 5) == n
  {
  }
}

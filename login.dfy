/** The login screen (LoginScreen.kt): what a click on "Iniciar sesión"
    does with the answer of the login call — the toast it shows, the token
    it keeps in the "auth" shared preferences, and where it goes. The
    answer body is given as its text; `JSONObject(text)` is a parameter
    `parse`. */
module LoginScreen {
  import opened Text
  import opened Json
  import opened Http

  /** `JSONObject(text)`: the members of an object, or the message of the
      exception it throws. */
  datatype Parsed = ParsedObject(members: Members) | Unparsable(message: string)

  /** The "auth" shared preferences, as far as this screen writes them. */
  class AuthPrefs {
    var token: Option<string>

    constructor (token0: Option<string>)
      ensures token == token0
    {
      token := token0;
    }
  }

  /** What the click leads to: a toast, the token written, the route
      opened. */
  datatype Outcome = Outcome(toast: Option<string>, stored: Option<string>, route: Option<string>)

  /** `response.body()?.string()`: Retrofit gives a body only for a 2xx
      answer. */
  function BodyText(call: Call<string>): (r: Option<string>)
    requires call.Answered?
    ensures r.Some? ==> IsSuccessful(call.code) && call.body == r
  {
    if IsSuccessful(call.code) then call.body else None
  }

  /** The decision, with its three early returns. */
  function Decide(call: Call<string>, parse: string -> Parsed): (o: Outcome)
    // an exception (from the call or from the parser) only shows its message
    ensures call.Threw? ==> o == Outcome(Some("Error: " + call.message), None, None)
    // a null or empty body
    ensures call.Answered? && (BodyText(call).None? || BodyText(call).value == "") ==>
      o == Outcome(Some("Respuesta vacía"), None, None)
    // the token is written exactly for an accepted login, and it is the
    // non-empty `token` of the answer
    ensures o.stored.Some? <==>
      call.Answered? && BodyText(call).Some? && BodyText(call).value != ""
      && parse(BodyText(call).value).ParsedObject?
      && OptBoolean(JObj(parse(BodyText(call).value).members), "acceso", false)
      && OptString(JObj(parse(BodyText(call).value).members), "token", "") != ""
    ensures o.stored.Some? ==>
      o.stored.value == OptString(JObj(parse(BodyText(call).value).members), "token", "") && o.stored.value != ""
    // a navigation only after the token is written, for the two known roles
    ensures o.route.Some? ==> o.stored.Some?
    ensures o.stored.Some? ==>
      var rol := OptString(JObj(parse(BodyText(call).value).members), "rol", "");
      && (rol == "usuario_generico" <==> o.route == Some("inicio_usuario_generico"))
      && (rol == "administrador_establecimiento" <==> o.route == Some("inicio_admin_establecimiento"))
      && (o.route.None? <==> o.toast == Some("Rol desconocido"))
      && (o.route.Some? ==> o.toast.None?)
  {
    if call.Threw? then Outcome(Some("Error: " + call.message), None, None)
    else
      var text := BodyText(call);
      if text.None? || text.value == "" then Outcome(Some("Respuesta vacía"), None, None)
      else
        match parse(text.value)
        case Unparsable(msg) => Outcome(Some("Error: " + msg), None, None)
        case ParsedObject(m) =>
          var json := JObj(m);
          var acceso := OptBoolean(json, "acceso", false);
          var token := OptString(json, "token", "");
          var rol := OptString(json, "rol", "");
          if !acceso || token == "" then Outcome(Some("Credenciales incorrectas"), None, None)
          else if rol == "usuario_generico" then Outcome(None, Some(token), Some("inicio_usuario_generico"))
          else if rol == "administrador_establecimiento" then Outcome(None, Some(token), Some("inicio_admin_establecimiento"))
          else Outcome(Some("Rol desconocido"), Some(token), None)
  }

  /** A delivered object that is not accepted, because `acceso` is false or
      missing or the token is empty, is turned down and nothing is kept. */
  lemma RejectedCredentials(call: Call<string>, parse: string -> Parsed)
    requires call.Answered? && BodyText(call).Some? && BodyText(call).value != ""
    requires parse(BodyText(call).value).ParsedObject?
    requires var j := JObj(parse(BodyText(call).value).members);
      !OptBoolean(j, "acceso", false) || OptString(j, "token", "") == ""
    ensures Decide(call, parse) == Outcome(Some("Credenciales incorrectas"), None, None)
  {
  }

  /** A login that is accepted always keeps its token, whatever the role;
      an unknown role keeps it without going anywhere. */
  lemma UnknownRoleKeepsToken(call: Call<string>, parse: string -> Parsed)
    requires call.Answered? && BodyText(call).Some? && BodyText(call).value != ""
    requires parse(BodyText(call).value).ParsedObject?
    requires var j := JObj(parse(BodyText(call).value).members);
      OptBoolean(j, "acceso", false) && OptString(j, "token", "") != ""
      && OptString(j, "rol", "") != "usuario_generico" && OptString(j, "rol", "") != "administrador_establecimiento"
    ensures Decide(call, parse).stored.Some? && Decide(call, parse).route.None?
    ensures Decide(call, parse).toast == Some("Rol desconocido")
  {
  }

  /** The click handler: it writes the token into the preferences only on
      an accepted login, and reports the toast and the route. */
  method Submit(call: Call<string>, parse: string -> Parsed, prefs: AuthPrefs)
    returns (toast: Option<string>, route: Option<string>)
    modifies prefs
    ensures var o := Decide(call, parse);
      && toast == o.toast && route == o.route
      && prefs.token == (if o.stored.Some? then o.stored else old(prefs.token))
  {
    if call.Threw? {
      return Some("Error: " + call.message), None;
    }
    var text := BodyText(call);
    if text.None? || text.value == "" {
      return Some("Respuesta vacía"), None;
    }
    var parsed := parse(text.value);
    if parsed.Unparsable? {
      return Some("Error: " + parsed.message), None;
    }
    var json := JObj(parsed.members);
    var acceso := OptBoolean(json, "acceso", false);
    var token := OptString(json, "token", "");
    var rol := OptString(json, "rol", "");
    if !acceso || token == "" {
      return Some("Credenciales incorrectas"), None;
    }
    prefs.token := Some(token);
    if rol == "usuario_generico" {
      toast, route := None, Some("inicio_usuario_generico");
    } else if rol == "administrador_establecimiento" {
      toast, route := None, Some("inicio_admin_establecimiento");
    } else {
      toast, route := Some("Rol desconocido"), None;
    }
  }
}

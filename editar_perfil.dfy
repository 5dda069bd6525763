/** The user's "Editar perfil" screen (user/EditarPerfilScreen.kt): the CSRF
    token read from the stored cookie, the load that fills the form and the
    preference selection, the preference toggle, and the PUT the save
    button sends. */
module EditarPerfilScreen {
  import opened Text
  import opened Json
  import opened Models
  import opened Http
  import opened Screen
  import opened Ambientes
  import opened Urls

  // ----- parseCsrfFromCookie -----

  const CsrfKey: string := "csrf_access_token"

  /** One `;`-separated part: trimmed, cut at its first `=`; the value when
      the key is exactly `csrf_access_token`. */
  function CsrfPart(p: string): (r: Option<string>)
    ensures r.Some? ==> Trim(p) == CsrfKey + "=" + r.value
  {
    var kv := SplitFirst(Trim(p), '=');
    if |kv| == 2 && kv[0] == CsrfKey then Some(kv[1]) else None
  }

  /** The value of the first matching part. */
  function FirstCsrf(parts: seq<string>): Option<string>
    decreases |parts|
  {
    if parts == [] then None
    else if CsrfPart(parts[0]).Some? then CsrfPart(parts[0])
    else FirstCsrf(parts[1..])
  }

  /** `parseCsrfFromCookie(cookie)`: nothing for a null or blank cookie. */
  function CsrfOf(cookie: Option<string>): Option<string> {
    if IsNullOrBlank(cookie) then None else FirstCsrf(Split(cookie.value, ';'))
  }

  /** The search loop of `parseCsrfFromCookie`, with its early return. */
  method ParseCsrfFromCookie(cookie: Option<string>) returns (r: Option<string>)
    ensures r == CsrfOf(cookie)
  {
    if IsNullOrBlank(cookie) {
      return None;
    }
    var parts := Split(cookie.value, ';');
    var i := 0;
    while i < |parts|
      invariant 0 <= i <= |parts|
      invariant FirstCsrf(parts[i..]) == FirstCsrf(parts)
    {
      assert parts[i..][0] == parts[i] && parts[i..][1..] == parts[i + 1..];
      var kv := SplitFirst(Trim(parts[i]), '=');
      if |kv| == 2 && kv[0] == CsrfKey {
        return Some(kv[1]);
      }
      i := i + 1;
    }
    return None;
  }

  /** The result is the value of the earliest part whose key is exactly
      `csrf_access_token`; later parts, and parts without `=`, are not
      looked at; with no such part the result is null. */
  lemma {:induction false} FirstCsrfSpec(parts: seq<string>)
    ensures FirstCsrf(parts).Some? <==> exists i :: 0 <= i < |parts| && CsrfPart(parts[i]).Some?
    ensures FirstCsrf(parts).Some? ==>
      exists i :: 0 <= i < |parts| && FirstCsrf(parts) == CsrfPart(parts[i])
        && forall j :: 0 <= j < i ==> CsrfPart(parts[j]).None?
    decreases |parts|
  {
    if parts != [] {
      var t := parts[1..];
      FirstCsrfSpec(t);
      assert forall i :: 1 <= i < |parts| ==> parts[i] == t[i - 1];
      if CsrfPart(parts[0]).None? && FirstCsrf(t).Some? {
        var i :| 0 <= i < |t| && FirstCsrf(t) == CsrfPart(t[i])
          && forall j :: 0 <= j < i ==> CsrfPart(t[j]).None?;
        forall j | 0 <= j < i + 1 ensures CsrfPart(parts[j]).None? {
          if j > 0 { assert parts[j] == t[j - 1]; }
        }
      }
    }
  }

  /** A part `csrf_access_token=<v>` gives `v` whole, even when `v` holds
      `=`: only the first `=` cuts. */
  lemma CsrfPartWhole(v: string)
    requires v == [] || !IsWhitespace(v[|v| - 1])
    ensures CsrfPart(CsrfKey + "=" + v) == Some(v)
  {
    var p := CsrfKey + "=" + v;
    assert p[0] == 'c' && p[|p| - 1] == (if v == [] then '=' else v[|v| - 1]);
    TrimOfSolid(p);
    var kv := SplitFirst(p, '=');
    assert ContainsChar(p, '=') by { assert p[|CsrfKey|] == '='; }
    assert !ContainsChar(CsrfKey, '=');
    assert kv[0] + ['='] + kv[1] == CsrfKey + ['='] + v;
    SplitFirstUnique(kv[0], kv[1], CsrfKey, v);
  }

  /** In `a + "=" + b` with no `=` in `a`, the first `=` sits at `|a|`. */
  lemma FirstEqualsAt(a: string, b: string)
    requires !ContainsChar(a, '=')
    ensures (a + ['='] + b)[|a|] == '='
    ensures forall k :: 0 <= k < |a| ==> (a + ['='] + b)[k] != '='
  {
  }

  /** Two cuts at a first `=` of the same text agree. */
  lemma SplitFirstUnique(a: string, b: string, c: string, d: string)
    requires !ContainsChar(a, '=') && !ContainsChar(c, '=')
    requires a + ['='] + b == c + ['='] + d
    ensures a == c && b == d
  {
    var s := a + ['='] + b;
    FirstEqualsAt(a, b);
    FirstEqualsAt(c, d);
    assert |a| == |c|;
    assert a == s[..|a|] == c;
    assert b == s[|a| + 1..] == d;
  }

  // ----- the screen -----

  /** The PUT `/usuario_generico` the save button sends: the JSON body and
      the optional headers. */
  datatype PerfilPut = PerfilPut(
    nombre: string, nombreUsuario: string, email: string, telefono: string,
    preferencias: seq<string>,
    authorization: Option<string>, cookie: Option<string>, csrf: Option<string>)

  /** The set of normalised backend preferences, `optString(i)` turning any
      element into text. */
  function PrefKeys(items: seq<Json>): set<string> {
    set i | 0 <= i < |items| :: NormalizeKey(AsText(items[i]))
  }

  /** The loop that fills `prefsBackend`. */
  method BackendPrefs(prefsJson: Option<seq<Json>>) returns (keys: set<string>)
    ensures prefsJson.None? ==> keys == {}
    ensures prefsJson.Some? ==> keys == PrefKeys(prefsJson.value)
  {
    keys := {};
    if prefsJson.Some? {
      var items := prefsJson.value;
      var i := 0;
      while i < |items|
        invariant 0 <= i <= |items|
        invariant keys == PrefKeys(items[..i])
      {
        assert forall k :: 0 <= k < i ==> items[..i + 1][k] == items[..i][k];
        keys := keys + {NormalizeKey(AsText(items[i]))};
        i := i + 1;
      }
      assert items[..|items|] == items;
    }
  }

  /** The preferences a save sends for a selection made only of entries
      picked by key on load are all among the stored keys: preferences the
      catalogue does not know are dropped. */
  lemma SavedPrefsKnown(all: seq<Ambiente>, keys: set<string>)
    ensures forall k :: k in NamesOf(SelectByKey(all, keys, NormalizeKey), NormalizeKey) ==> k in keys
  {
    var sel := SelectByKey(all, keys, NormalizeKey);
    var names := NamesOf(sel, NormalizeKey);
    forall k | k in names ensures k in keys {
      var i :| 0 <= i < |names| && names[i] == k;
      assert sel[i] in sel;
    }
  }

  class EditarPerfil {
    var catalogue: seq<Ambiente>
    var loading: bool
    var saving: bool
    var error: Option<string>
    var nombre: string
    var nombreUsuario: string
    var email: string
    var telefono: string
    var selected: seq<Ambiente>

    predicate Valid()
      reads this
    {
      NoDup(catalogue) && NoDup(selected)
    }

    constructor ()
      ensures Valid() && catalogue == Catalogue
      ensures loading && !saving && error.None? && selected == []
      ensures nombre == "" && nombreUsuario == "" && email == "" && telefono == ""
    {
      CatalogueNoDup();
      catalogue := Catalogue;
      loading, saving, error := true, false, None;
      nombre, nombreUsuario, email, telefono := "", "", "", "";
      selected := [];
    }

    /** The launch effect. A failed status sets "HTTP <code>"; an exception,
        a missing body or a missing `usuario` object sets an error
        (`failure` stands for the exception's message); otherwise the four
        fields are read with "" as fallback and the selection is the
        catalogue entries whose key is among the stored preferences.
        `loading` ends in every case. */
    method Load(call: Call<Json>, failure: string)
      requires Valid()
      modifies this
      ensures Valid() && !loading && saving == old(saving) && catalogue == old(catalogue)
      ensures call.Answered? && !IsSuccessful(call.code) ==>
        error == Some("HTTP " + IntToString(call.code)) && selected == old(selected) && nombre == old(nombre)
      ensures call.Threw? ==> error == Some(call.message) && selected == old(selected) && nombre == old(nombre)
      ensures Delivered(call) && OptObject(call.body.value, "usuario").Some? ==>
        var u := OptObject(call.body.value, "usuario").value;
        && error == old(error)
        && nombre == OptString(u, "nombre", "") && nombreUsuario == OptString(u, "nombre_usuario", "")
        && email == OptString(u, "email", "") && telefono == OptString(u, "telefono", "")
        && selected == SelectByKey(catalogue, if OptArray(u, "preferencias").Some?
                                               then PrefKeys(OptArray(u, "preferencias").value) else {}, NormalizeKey)
      ensures call.Answered? && IsSuccessful(call.code) && (call.body.None? || OptObject(call.body.value, "usuario").None?) ==>
        error == Some(failure) && selected == old(selected) && nombre == old(nombre)
      ensures !(Delivered(call) && OptObject(call.body.value, "usuario").Some?) ==>
        && nombre == old(nombre) && nombreUsuario == old(nombreUsuario) && email == old(email)
        && telefono == old(telefono) && selected == old(selected)
    {
      if call.Threw? {
        error := Some(call.message);
      } else if !IsSuccessful(call.code) {
        error := Some("HTTP " + IntToString(call.code));
      } else if call.body.None? || OptObject(call.body.value, "usuario").None? {
        error := Some(failure);
      } else {
        Fill(OptObject(call.body.value, "usuario").value);
      }
      loading := false;
    }

    /** The reads of a delivered `usuario` object. */
    method Fill(u: Json)
      requires Valid()
      modifies this
      ensures Valid() && catalogue == old(catalogue) && saving == old(saving)
      ensures loading == old(loading) && error == old(error)
      ensures nombre == OptString(u, "nombre", "") && nombreUsuario == OptString(u, "nombre_usuario", "")
      ensures email == OptString(u, "email", "") && telefono == OptString(u, "telefono", "")
      ensures selected == SelectByKey(catalogue, if OptArray(u, "preferencias").Some?
                                                 then PrefKeys(OptArray(u, "preferencias").value) else {}, NormalizeKey)
    {
      nombre := OptString(u, "nombre", "");
      nombreUsuario := OptString(u, "nombre_usuario", "");
      email := OptString(u, "email", "");
      telefono := OptString(u, "telefono", "");
      var keys := BackendPrefs(OptArray(u, "preferencias"));
      SelectByKeyNoDup(catalogue, keys, NormalizeKey);
      selected := SelectByKey(catalogue, keys, NormalizeKey);
    }

    /** A click on a preference flips that one only. */
    method TogglePreferencia(a: Ambiente)
      requires Valid()
      modifies this
      ensures Valid()
      ensures selected == Toggle(old(selected), a)
      ensures a in selected <==> a !in old(selected)
      ensures forall b :: b != a ==> (b in selected <==> b in old(selected))
      ensures catalogue == old(catalogue) && saving == old(saving)
      ensures nombre == old(nombre) && nombreUsuario == old(nombreUsuario) && email == old(email)
      ensures telefono == old(telefono) && loading == old(loading) && error == old(error)
    {
      ToggleSpec(selected, a);
      selected := Toggle(selected, a);
    }

    /** The save button (disabled while saving): a blank name, user name or
        e-mail, or neither token nor cookie, is refused with no request;
        otherwise `saving` is set and the PUT carries the trimmed fields,
        the normalised preferences, and a header for each credential that
        is present. */
    method Save(token: Option<string>, cookie: Option<string>) returns (r: Submit<PerfilPut>)
      modifies this
      ensures old(saving) ==> r == Ignored && saving
      ensures !old(saving) && (IsBlank(nombre) || IsBlank(nombreUsuario) || IsBlank(email)) ==>
        r == Rejected("Completa los campos obligatorios") && !saving
      ensures !old(saving) && !(IsBlank(nombre) || IsBlank(nombreUsuario) || IsBlank(email))
              && IsNullOrBlank(token) && IsNullOrBlank(cookie) ==>
        r == Rejected("No hay credenciales (token/cookie) para autenticar.") && !saving
      ensures r.Send? <==>
        (!old(saving) && !IsBlank(nombre) && !IsBlank(nombreUsuario) && !IsBlank(email)
         && !(IsNullOrBlank(token) && IsNullOrBlank(cookie)))
      ensures r.Send? ==> saving && r.body == PerfilPut(
        Trim(nombre), Trim(nombreUsuario), Trim(email), Trim(telefono),
        NamesOf(selected, NormalizeKey),
        if token.Some? then Some("Bearer " + token.value) else None,
        cookie, CsrfOf(cookie))
      ensures nombre == old(nombre) && nombreUsuario == old(nombreUsuario) && email == old(email)
      ensures telefono == old(telefono) && selected == old(selected) && catalogue == old(catalogue)
      ensures loading == old(loading) && error == old(error)
    {
      if saving {
        return Ignored;
      }
      if IsBlank(nombre) || IsBlank(nombreUsuario) || IsBlank(email) {
        return Rejected("Completa los campos obligatorios");
      }
      var csrf := ParseCsrfFromCookie(cookie);
      if IsNullOrBlank(token) && IsNullOrBlank(cookie) {
        return Rejected("No hay credenciales (token/cookie) para autenticar.");
      }
      saving := true;
      var prefs := NamesOf(selected, NormalizeKey);
      var auth := if token.Some? then Some("Bearer " + token.value) else None;
      r := Send(PerfilPut(Trim(nombre), Trim(nombreUsuario), Trim(email), Trim(telefono), prefs, auth, cookie, csrf));
    }

    /** The outcome of the PUT: `execute()` answers a status, and then
        `saving` ends; a 2xx status opens the profile again, anything else
        stays with a message. An `IOException` from `execute()` is not
        caught: the screen crashes (`crashed`) with `saving` still up. */
    method AfterSave(call: Call<()>) returns (next: Next, crashed: bool)
      modifies this
      ensures crashed <==> call.Threw?
      ensures crashed ==> saving == old(saving) && next == Stay
      ensures !crashed ==> !saving
      ensures next == Navigate("datos_perfil") <==> call.Answered? && 200 <= call.code <= 299
      ensures next != Navigate("datos_perfil") ==> next == Stay
      ensures nombre == old(nombre) && nombreUsuario == old(nombreUsuario) && email == old(email)
      ensures telefono == old(telefono) && selected == old(selected) && catalogue == old(catalogue)
      ensures loading == old(loading) && error == old(error)
    {
      if call.Threw? {
        return Stay, true;
      }
      saving := false;
      next, crashed := if 200 <= call.code <= 299 then Navigate("datos_perfil") else Stay, false;
    }
  }
}

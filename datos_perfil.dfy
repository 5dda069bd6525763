/** The user profile screen (user/DatosPerfilScreen.kt): `parsePerfil` with
    its loops over activities, participants and reviews, `toListString`,
    the screen state set by a load and a reload, and the "—" of an empty
    read-only field. The raw body is given as the tree `JSONObject(raw)`
    parses it to; a body that does not parse is a missing body. */
module DatosPerfilScreen {
  import opened Text
  import opened Json
  import opened Models
  import opened Http

  datatype PerfilData = PerfilData(
    usuario: UsuarioPerfil, actividades: seq<ActividadPerfil>, reviews: seq<ReviewPerfil>)

  /** `optJSONObject(objKey)?.optString(key).orEmpty()`. */
  function NestedText(j: Json, objKey: string, key: string): (r: string)
    ensures OptObject(j, objKey).None? ==> r == ""
    ensures OptObject(j, objKey).Some? ==> r == OptString(OptObject(j, objKey).value, key, "")
  {
    match OptObject(j, objKey)
    case Some(o) => OptString(o, key, "")
    case None => ""
  }

  /** `optJSONArray(key) ?: JSONArray()`. */
  function ArrayOrEmpty(j: Json, key: string): (r: seq<Json>)
    ensures OptArray(j, key).None? ==> r == []
    ensures OptArray(j, key).Some? ==> r == OptArray(j, key).value
  {
    match OptArray(j, key)
    case Some(items) => items
    case None => []
  }

  /** The `usuario` record: every text read with "" as fallback. */
  function UsuarioOf(u: Json): UsuarioPerfil {
    UsuarioPerfil(
      OidOrEmpty(u),
      OptString(u, "nombre", ""),
      OptString(u, "nombre_usuario", ""),
      OptString(u, "email", ""),
      OptString(u, "telefono", ""),
      NestedText(u, "fecha_nac", "$date"),
      OptString(u, "imagen_url", ""),
      ListOrEmpty(u, "preferencias"))
  }

  /** A participant: `getJSONObject(j)` throws on a non-object. */
  function ParticipanteCell(pj: Json): Option<seq<ParticipantePerfil>> {
    if pj.JObj? then Some([ParticipantePerfil(OptString(pj, "nombre_usuario", ""), OptString(pj, "imagen_url", ""))])
    else None
  }

  function ActividadOf(o: Json, participantes: seq<ParticipantePerfil>): ActividadPerfil {
    ActividadPerfil(
      OidOrEmpty(o),
      OptString(o, "nombre_actividad", ""),
      OptString(o, "descripcion_actividad", ""),
      NestedText(o, "fecha_actividad", "$date"),
      OptString(o, "hora_actividad", ""),
      OptString(o, "ubicacion", ""),
      participantes)
  }

  /** An activity, with its participants decoded one by one. */
  function ActividadCell(o: Json): Option<seq<ActividadPerfil>> {
    if !o.JObj? then None
    else
      match Collect(ArrayOrEmpty(o, "perfil_participantes"), ParticipanteCell)
      case Some(ps) => Some([ActividadOf(o, ps)])
      case None => None
  }

  function ReviewOf(r: Json): ReviewPerfil {
    ReviewPerfil(
      OidOrEmpty(r),
      OptDouble(r, "calificacion", 0.0),
      OptString(r, "mensaje", ""),
      OptString(r, "nombre_establecimiento", ""),
      OptString(r, "fecha_creacion", ""))
  }

  function ReviewCell(r: Json): Option<seq<ReviewPerfil>> {
    if r.JObj? then Some([ReviewOf(r)]) else None
  }

  /** `parsePerfil`: None where the library throws. */
  function PerfilOf(root: Json): Option<PerfilData> {
    match OptObject(root, "usuario")
    case None => None
    case Some(u) =>
      var acts := Collect(ArrayOrEmpty(root, "actividades"), ActividadCell);
      var revs := Collect(ArrayOrEmpty(root, "reviews"), ReviewCell);
      if acts.None? || revs.None? then None
      else Some(PerfilData(UsuarioOf(u), acts.value, revs.value))
  }

  /** The participants of one activity come one per element, in order. */
  lemma ParticipantesSpec(arr: seq<Json>)
    ensures Collect(arr, ParticipanteCell).Some? <==> forall i :: 0 <= i < |arr| ==> arr[i].JObj?
    ensures Collect(arr, ParticipanteCell).Some? ==>
      var ps := Collect(arr, ParticipanteCell).value;
      && |ps| == |arr|
      && forall i :: 0 <= i < |arr| ==>
           ps[i] == ParticipantePerfil(OptString(arr[i], "nombre_usuario", ""), OptString(arr[i], "imagen_url", ""))
  {
    CollectSomeIff(arr, ParticipanteCell);
    if Collect(arr, ParticipanteCell).Some? {
      CollectSingles(arr, ParticipanteCell);
    }
  }

  /** An activity decodes when it and each of its participants is an object. */
  predicate ActividadParses(o: Json) {
    var ps := ArrayOrEmpty(o, "perfil_participantes");
    o.JObj? && forall j :: 0 <= j < |ps| ==> ps[j].JObj?
  }

  /** An activity decodes exactly when it and its participants are objects,
      to one record holding one participant per element. */
  lemma ActividadCellSpec(o: Json)
    ensures ActividadCell(o).Some? <==> ActividadParses(o)
    ensures ActividadCell(o).Some? ==>
      |ActividadCell(o).value| == 1
      && ActividadCell(o).value[0].nombre == OptString(o, "nombre_actividad", "")
      && |ActividadCell(o).value[0].participantes| == |ArrayOrEmpty(o, "perfil_participantes")|
  {
    ParticipantesSpec(ArrayOrEmpty(o, "perfil_participantes"));
  }

  /** The profile parses exactly when `usuario` is an object and every
      activity, participant and review is an object; then there is one
      activity per element in order, each with one participant per element
      in order, and one review per element in order with `calificacion`
      0.0 when absent. Missing arrays give empty lists. */
  lemma PerfilOfSpec(root: Json)
    ensures var acts := ArrayOrEmpty(root, "actividades");
      var revs := ArrayOrEmpty(root, "reviews");
      && (PerfilOf(root).Some? <==>
            && OptObject(root, "usuario").Some?
            && (forall i :: 0 <= i < |acts| ==> ActividadParses(acts[i]))
            && (forall i :: 0 <= i < |revs| ==> revs[i].JObj?))
      && (PerfilOf(root).Some? ==>
            var p := PerfilOf(root).value;
            && p.usuario == UsuarioOf(OptObject(root, "usuario").value)
            && |p.actividades| == |acts| && |p.reviews| == |revs|
            && (forall i :: 0 <= i < |acts| ==>
                  p.actividades[i].nombre == OptString(acts[i], "nombre_actividad", "")
                  && |p.actividades[i].participantes| == |ArrayOrEmpty(acts[i], "perfil_participantes")|)
            && (forall i :: 0 <= i < |revs| ==> p.reviews[i] == ReviewOf(revs[i])))
  {
    var acts := ArrayOrEmpty(root, "actividades");
    var revs := ArrayOrEmpty(root, "reviews");
    CollectSomeIff(acts, ActividadCell);
    CollectSomeIff(revs, ReviewCell);
    forall i | 0 <= i < |acts|
      ensures ActividadCell(acts[i]).Some? <==> ActividadParses(acts[i])
      ensures ActividadCell(acts[i]).Some? ==>
        |ActividadCell(acts[i]).value| == 1
        && |ActividadCell(acts[i]).value[0].participantes| == |ArrayOrEmpty(acts[i], "perfil_participantes")|
    {
      ActividadCellSpec(acts[i]);
    }
    if PerfilOf(root).Some? {
      CollectSingles(acts, ActividadCell);
      CollectSingles(revs, ReviewCell);
    }
  }

  /** The participants loop of one activity. */
  method ParseParticipantes(arr: seq<Json>) returns (r: Option<seq<ParticipantePerfil>>)
    ensures r == Collect(arr, ParticipanteCell)
  {
    var out: seq<ParticipantePerfil> := [];
    var j := 0;
    while j < |arr|
      invariant 0 <= j <= |arr|
      invariant Collect(arr[..j], ParticipanteCell) == Some(out)
    {
      assert arr[..j + 1][..j] == arr[..j];
      if !arr[j].JObj? {
        CollectStuck(arr, j + 1, ParticipanteCell);
        return None;
      }
      out := out + [ParticipantePerfil(OptString(arr[j], "nombre_usuario", ""), OptString(arr[j], "imagen_url", ""))];
      j := j + 1;
    }
    assert arr[..|arr|] == arr;
    r := Some(out);
  }

  /** The activities loop, with the participants loop nested in it. */
  method ParseActividades(arr: seq<Json>) returns (r: Option<seq<ActividadPerfil>>)
    ensures r == Collect(arr, ActividadCell)
  {
    var out: seq<ActividadPerfil> := [];
    var i := 0;
    while i < |arr|
      invariant 0 <= i <= |arr|
      invariant Collect(arr[..i], ActividadCell) == Some(out)
    {
      assert arr[..i + 1][..i] == arr[..i];
      if !arr[i].JObj? {
        CollectStuck(arr, i + 1, ActividadCell);
        return None;
      }
      var ps := ParseParticipantes(ArrayOrEmpty(arr[i], "perfil_participantes"));
      if ps.None? {
        CollectStuck(arr, i + 1, ActividadCell);
        return None;
      }
      out := out + [ActividadOf(arr[i], ps.value)];
      i := i + 1;
    }
    assert arr[..|arr|] == arr;
    r := Some(out);
  }

  /** The reviews loop. */
  method ParseReviews(arr: seq<Json>) returns (r: Option<seq<ReviewPerfil>>)
    ensures r == Collect(arr, ReviewCell)
  {
    var out: seq<ReviewPerfil> := [];
    var i := 0;
    while i < |arr|
      invariant 0 <= i <= |arr|
      invariant Collect(arr[..i], ReviewCell) == Some(out)
    {
      assert arr[..i + 1][..i] == arr[..i];
      if !arr[i].JObj? {
        CollectStuck(arr, i + 1, ReviewCell);
        return None;
      }
      out := out + [ReviewOf(arr[i])];
      i := i + 1;
    }
    assert arr[..|arr|] == arr;
    r := Some(out);
  }

  /** `parsePerfil`. */
  method ParsePerfil(root: Json) returns (r: Option<PerfilData>)
    ensures r == PerfilOf(root)
  {
    var u := OptObject(root, "usuario");
    if u.None? {
      return None;
    }
    var usuario := UsuarioOf(u.value);
    var acts := ParseActividades(ArrayOrEmpty(root, "actividades"));
    if acts.None? {
      return None;
    }
    var revs := ParseReviews(ArrayOrEmpty(root, "reviews"));
    if revs.None? {
      return None;
    }
    r := Some(PerfilData(usuario, acts.value, revs.value));
  }

  /** `toListString`: `optString(i, "")` of every index, appended in order. */
  method ToListString(items: seq<Json>) returns (r: seq<string>)
    ensures r == ToStringList(items)
  {
    r := [];
    var i := 0;
    while i < |items|
      invariant 0 <= i <= |items|
      invariant |r| == i && forall k :: 0 <= k < i ==> r[k] == AsText(items[k])
    {
      r := r + [AsText(items[i])];
      i := i + 1;
    }
  }

  const Dash: string := "—"

  /** `ReadOnlyField`: a blank value shows "—"; the field never shows blank. */
  function FieldText(value: string): (r: string)
    ensures IsBlank(value) ==> r == Dash
    ensures !IsBlank(value) ==> r == value
    ensures !IsBlank(r)
  {
    if IsBlank(value) then
      assert !IsWhitespace(Dash[0]);
      Dash
    else value
  }

  const ReloadFlag: string := "reload_perfil"

  /** The state of the screen. */
  class DatosPerfil {
    var perfil: Option<PerfilData>
    var loading: bool
    var error: Option<string>

    constructor ()
      ensures perfil.None? && loading && error.None?
    {
      perfil := None;
      loading := true;
      error := None;
    }

    /** `loadPerfil`: the error is cleared first; an exception sets its
        message; a failed status sets "HTTP <code>"; a body that does not
        parse sets `failure` (the exception's message); a parsed profile
        replaces the shown one. `loading` ends in every case. */
    method LoadPerfil(call: Call<Json>, failure: string)
      modifies this
      ensures !loading
      ensures call.Threw? ==> error == Some(call.message) && perfil == old(perfil)
      ensures call.Answered? && !IsSuccessful(call.code) ==>
        error == Some("HTTP " + IntToString(call.code)) && perfil == old(perfil)
      ensures call.Answered? && IsSuccessful(call.code) && (call.body.None? || PerfilOf(call.body.value).None?) ==>
        error == Some(failure) && perfil == old(perfil)
      ensures Delivered(call) && PerfilOf(call.body.value).Some? ==>
        error.None? && perfil == PerfilOf(call.body.value)
    {
      error := None;
      if call.Threw? {
        error := Some(call.message);
      } else if !IsSuccessful(call.code) {
        error := Some("HTTP " + IntToString(call.code));
      } else if call.body.None? {
        error := Some(failure);
      } else {
        var p := ParsePerfil(call.body.value);
        if p.None? {
          error := Some(failure);
        } else {
          perfil := p;
        }
      }
      loading := false;
    }

    /** The `reload_perfil` signal: when true the profile is loaded again
        and the signal is reset to false; otherwise nothing happens. */
    method OnReload(signal: bool, call: Call<Json>, failure: string) returns (newSignal: bool)
      modifies this
      ensures !newSignal
      ensures !signal ==> perfil == old(perfil) && loading == old(loading) && error == old(error)
      ensures signal ==> !loading
      ensures signal && call.Threw? ==> error == Some(call.message) && perfil == old(perfil)
      ensures signal && call.Answered? && !IsSuccessful(call.code) ==>
        error == Some("HTTP " + IntToString(call.code)) && perfil == old(perfil)
      ensures signal && call.Answered? && IsSuccessful(call.code) && (call.body.None? || PerfilOf(call.body.value).None?) ==>
        error == Some(failure) && perfil == old(perfil)
      ensures signal && Delivered(call) && PerfilOf(call.body.value).Some? ==>
        error.None? && perfil == PerfilOf(call.body.value)
    {
      if signal {
        loading := true;
        LoadPerfil(call, failure);
      }
      newSignal := false;
    }
  }
}

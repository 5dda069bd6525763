/** The user "Eventos y Actividades" screen (user/EventosActividadesScreen.kt):
    the decoding loops of the sorted events and of the user's activities,
    the establishment-name lookup of each event, the reload signal and the
    texts of the event cards. A response body is given as its raw text
    and `parse` is the org.json text parser (None where it throws); the
    date formatter is a parameter. */
module EventosActividadesScreen {
  import opened Text
  import opened Json
  import opened Models
  import opened Http

  /** `optJSONObject(objKey)?.optString(key).orEmpty()`. */
  function NestedText(j: Json, objKey: string, key: string): (r: string)
    ensures OptObject(j, objKey).None? ==> r == ""
    ensures OptObject(j, objKey).Some? ==> r == OptString(OptObject(j, objKey).value, key, "")
  {
    match OptObject(j, objKey)
    case Some(o) => OptString(o, key, "")
    case None => ""
  }

  /** `optJSONArray(key) ?: JSONArray()`. */
  function ArrayOrEmpty(j: Json, key: string): (r: seq<Json>)
    ensures OptArray(j, key).None? ==> r == []
    ensures OptArray(j, key).Some? ==> r == OptArray(j, key).value
  {
    match OptArray(j, key)
    case Some(items) => items
    case None => []
  }

  // ----- activities -----

  function ParticipanteOf(pj: Json): ParticipanteUI {
    ParticipanteUI(OptString(pj, "id", ""), OptString(pj, "nombre_usuario", ""), OptString(pj, "imagen_url", ""))
  }

  /** A participant: `getJSONObject(j)` throws on a non-object. */
  function ParticipanteCell(pj: Json): Option<seq<ParticipanteUI>> {
    if pj.JObj? then Some([ParticipanteOf(pj)]) else None
  }

  function ActividadOf(o: Json, participantes: seq<ParticipanteUI>): ActividadUI {
    ActividadUI(
      OidOrEmpty(o),
      OptString(o, "nombre_actividad", ""),
      OptString(o, "descripcion_actividad", ""),
      NestedText(o, "fecha_actividad", "$date"),
      OptString(o, "hora_actividad", ""),
      OptString(o, "ubicacion", ""),
      OptString(o, "id_usuario_creador", ""),
      participantes)
  }

  function ActividadCell(o: Json): Option<seq<ActividadUI>> {
    if !o.JObj? then None
    else
      match Collect(ArrayOrEmpty(o, "perfil_participantes"), ParticipanteCell)
      case Some(ps) => Some([ActividadOf(o, ps)])
      case None => None
  }

  /** An activity decodes when it and each of its participants is an object. */
  predicate ActividadParses(o: Json) {
    var ps := ArrayOrEmpty(o, "perfil_participantes");
    o.JObj? && forall j :: 0 <= j < |ps| ==> ps[j].JObj?
  }

  /** One activity: decoded exactly when it and its participants are
      objects, into one item whose participants come one per element, in
      order, with "" for missing fields. */
  lemma ActividadCellSpec(o: Json)
    ensures ActividadCell(o).Some? <==> ActividadParses(o)
    ensures ActividadCell(o).Some? ==>
      var ps := ArrayOrEmpty(o, "perfil_participantes");
      var a := ActividadCell(o).value;
      && |a| == 1 && a[0] == ActividadOf(o, a[0].participantes)
      && |a[0].participantes| == |ps|
      && forall j :: 0 <= j < |ps| ==> a[0].participantes[j] == ParticipanteOf(ps[j])
  {
    var ps := ArrayOrEmpty(o, "perfil_participantes");
    CollectSomeIff(ps, ParticipanteCell);
    if Collect(ps, ParticipanteCell).Some? {
      CollectSingles(ps, ParticipanteCell);
    }
  }

  /** The activities list holds one item per element, in order, and is
      decoded exactly when every element decodes. */
  lemma ActividadesSpec(arr: seq<Json>)
    ensures Collect(arr, ActividadCell).Some? <==> forall i :: 0 <= i < |arr| ==> ActividadParses(arr[i])
    ensures Collect(arr, ActividadCell).Some? ==>
      var list := Collect(arr, ActividadCell).value;
      && |list| == |arr|
      && forall i :: 0 <= i < |arr| ==> list[i] == ActividadOf(arr[i], list[i].participantes)
  {
    CollectSomeIff(arr, ActividadCell);
    forall i | 0 <= i < |arr|
      ensures ActividadCell(arr[i]).Some? <==> ActividadParses(arr[i])
      ensures ActividadCell(arr[i]).Some? ==>
        |ActividadCell(arr[i]).value| == 1
        && ActividadCell(arr[i]).value[0] == ActividadOf(arr[i], ActividadCell(arr[i]).value[0].participantes)
    {
      ActividadCellSpec(arr[i]);
    }
    if Collect(arr, ActividadCell).Some? {
      CollectSingles(arr, ActividadCell);
    }
  }

  /** The participants loop of one activity. */
  method ParseParticipantes(arr: seq<Json>) returns (r: Option<seq<ParticipanteUI>>)
    ensures r == Collect(arr, ParticipanteCell)
  {
    var out: seq<ParticipanteUI> := [];
    var j := 0;
    while j < |arr|
      invariant 0 <= j <= |arr|
      invariant Collect(arr[..j], ParticipanteCell) == Some(out)
    {
      assert arr[..j + 1][..j] == arr[..j];
      if !arr[j].JObj? {
        CollectStuck(arr, j + 1, ParticipanteCell);
        return None;
      }
      out := out + [ParticipanteOf(arr[j])];
      j := j + 1;
    }
    assert arr[..|arr|] == arr;
    r := Some(out);
  }

  /** The activities loop of `reloadActividades`. */
  method ParseActividades(arr: seq<Json>) returns (r: Option<seq<ActividadUI>>)
    ensures r == Collect(arr, ActividadCell)
  {
    var out: seq<ActividadUI> := [];
    var i := 0;
    while i < |arr|
      invariant 0 <= i <= |arr|
      invariant Collect(arr[..i], ActividadCell) == Some(out)
    {
      assert arr[..i + 1][..i] == arr[..i];
      if !arr[i].JObj? {
        CollectStuck(arr, i + 1, ActividadCell);
        return None;
      }
      var ps := ParseParticipantes(ArrayOrEmpty(arr[i], "perfil_participantes"));
      if ps.None? {
        CollectStuck(arr, i + 1, ActividadCell);
        return None;
      }
      out := out + [ActividadOf(arr[i], ps.value)];
      i := i + 1;
    }
    assert arr[..|arr|] == arr;
    r := Some(out);
  }

  /** What `reloadActividades` makes of an answer: the new list, or None
      where it returns early or throws (the list is then left alone). */
  function ActividadesOf(call: Call<string>, parse: string -> Option<Json>): (r: Option<seq<ActividadUI>>)
    ensures call.Threw? || !IsSuccessful(call.code) ==> r.None?
    ensures call.Answered? && (call.body.None? || IsBlank(call.body.value)) ==> r.None?
  {
    if call.Threw? || !IsSuccessful(call.code) || call.body.None? || IsBlank(call.body.value) then None
    else
      match parse(call.body.value)
      case Some(JArr(arr)) => Collect(arr, ActividadCell)
      case _ => None
  }

  // ----- events -----

  /** The establishment name of an event: looked up only for a non-blank
      id; a failed status, a missing body or an exception leave "". */
  function NombreEstablecimiento(id: string, fetch: string -> Call<Establecimiento>): (r: string)
    ensures IsBlank(id) ==> r == ""
    ensures !IsBlank(id) && Delivered(fetch(id)) ==> r == fetch(id).body.value.nombre
    ensures !IsBlank(id) && !Delivered(fetch(id)) ==> r == ""
  {
    if IsBlank(id) then ""
    else
      var c := fetch(id);
      if Delivered(c) then c.body.value.nombre else ""
  }

  function EventoOf(o: Json, fetch: string -> Call<Establecimiento>): EventoUI {
    var idEst := OptString(o, "id_establecimiento", "");
    EventoUI(
      OidOrEmpty(o),
      OptString(o, "nombre_evento", ""),
      OptString(o, "descripcion_evento", ""),
      NestedText(o, "fecha_evento", "$date"),
      OptDouble(o, "precio", 0.0),
      OptString(o, "hora_evento", ""),
      idEst,
      NombreEstablecimiento(idEst, fetch),
      OptString(o, "imagen_url", ""))
  }

  function EventoCell(fetch: string -> Call<Establecimiento>): Json -> Option<seq<EventoUI>> {
    (o: Json) => if o.JObj? then Some([EventoOf(o, fetch)]) else None
  }

  /** The events list holds one item per element of `eventos_ordenados`, in
      order, and is decoded exactly when every element is an object. */
  lemma EventosSpec(arr: seq<Json>, fetch: string -> Call<Establecimiento>)
    ensures Collect(arr, EventoCell(fetch)).Some? <==> forall i :: 0 <= i < |arr| ==> arr[i].JObj?
    ensures Collect(arr, EventoCell(fetch)).Some? ==>
      var list := Collect(arr, EventoCell(fetch)).value;
      && |list| == |arr|
      && forall i :: 0 <= i < |arr| ==> list[i] == EventoOf(arr[i], fetch)
  {
    CollectSomeIff(arr, EventoCell(fetch));
    if Collect(arr, EventoCell(fetch)).Some? {
      CollectSingles(arr, EventoCell(fetch));
    }
  }

  /** The `try` around the lookup of one event's establishment. */
  method LookupNombre(idEst: string, fetch: string -> Call<Establecimiento>) returns (nombreEst: string)
    ensures nombreEst == NombreEstablecimiento(idEst, fetch)
  {
    nombreEst := "";
    if !IsBlank(idEst) {
      var rEst := fetch(idEst);
      if Delivered(rEst) {
        nombreEst := rEst.body.value.nombre;
      }
    }
  }

  /** The events loop of the launch effect, one lookup per event. */
  method ParseEventos(arr: seq<Json>, fetch: string -> Call<Establecimiento>) returns (r: Option<seq<EventoUI>>)
    ensures r == Collect(arr, EventoCell(fetch))
  {
    var out: seq<EventoUI> := [];
    var i := 0;
    while i < |arr|
      invariant 0 <= i <= |arr|
      invariant Collect(arr[..i], EventoCell(fetch)) == Some(out)
    {
      assert arr[..i + 1][..i] == arr[..i];
      if !arr[i].JObj? {
        CollectStuck(arr, i + 1, EventoCell(fetch));
        return None;
      }
      var o := arr[i];
      var idEst := OptString(o, "id_establecimiento", "");
      var nombreEst := LookupNombre(idEst, fetch);
      var e := EventoUI(OidOrEmpty(o), OptString(o, "nombre_evento", ""), OptString(o, "descripcion_evento", ""),
                        NestedText(o, "fecha_evento", "$date"), OptDouble(o, "precio", 0.0),
                        OptString(o, "hora_evento", ""), idEst, nombreEst, OptString(o, "imagen_url", ""));
      assert e == EventoOf(o, fetch);
      out := out + [e];
      i := i + 1;
    }
    assert arr[..|arr|] == arr;
    r := Some(out);
  }

  /** What the launch effect makes of an answer: the new events list, or
      None where it returns early or throws. */
  function EventosOf(call: Call<string>, parse: string -> Option<Json>, fetch: string -> Call<Establecimiento>)
    : (r: Option<seq<EventoUI>>)
    ensures call.Threw? || !IsSuccessful(call.code) ==> r.None?
    ensures call.Answered? && (call.body.None? || IsBlank(call.body.value)) ==> r.None?
    ensures r.Some? ==> parse(call.body.value).Some? && OptArray(parse(call.body.value).value, "eventos_ordenados").Some?
  {
    if call.Threw? || !IsSuccessful(call.code) || call.body.None? || IsBlank(call.body.value) then None
    else
      match parse(call.body.value)
      case Some(JObj(m)) =>
        (match OptArray(JObj(m), "eventos_ordenados")
         case Some(arr) => Collect(arr, EventoCell(fetch))
         case None => None)
      case _ => None
  }

  // ----- the screen -----

  const ReloadFlag: string := "reload_actividades"

  class EventosActividades {
    var eventos: seq<EventoUI>
    var actividades: seq<ActividadUI>

    constructor ()
      ensures eventos == [] && actividades == []
    {
      eventos := [];
      actividades := [];
    }

    /** `reloadActividades`: a decoded list replaces the activities; an
        early return or an exception leaves them as they were. */
    method ReloadActividades(call: Call<string>, parse: string -> Option<Json>)
      modifies this
      ensures ActividadesOf(call, parse).Some? ==> actividades == ActividadesOf(call, parse).value
      ensures ActividadesOf(call, parse).None? ==> actividades == old(actividades)
      ensures eventos == old(eventos)
    {
      if call.Threw? || !IsSuccessful(call.code) {
        return;
      }
      var raw := if call.body.Some? then call.body.value else "";
      if IsBlank(raw) {
        return;
      }
      var root := parse(raw);
      if root.None? || !root.value.JArr? {
        return;
      }
      var list := ParseActividades(root.value.items);
      if list.Some? {
        actividades := list.value;
      }
    }

    /** The launch effect's event load: a decoded list replaces the events;
        an early return (failed status, blank body, no `eventos_ordenados`)
        or an exception leaves them as they were. */
    method LoadEventos(call: Call<string>, parse: string -> Option<Json>, fetch: string -> Call<Establecimiento>)
      modifies this
      ensures EventosOf(call, parse, fetch).Some? ==> eventos == EventosOf(call, parse, fetch).value
      ensures EventosOf(call, parse, fetch).None? ==> eventos == old(eventos)
      ensures actividades == old(actividades)
    {
      if call.Threw? || !IsSuccessful(call.code) {
        return;
      }
      var raw := if call.body.Some? then call.body.value else "";
      if IsBlank(raw) {
        return;
      }
      var root := parse(raw);
      if root.None? || !root.value.JObj? {
        return;
      }
      var arr := OptArray(root.value, "eventos_ordenados");
      if arr.None? {
        return;
      }
      var list := ParseEventos(arr.value, fetch);
      if list.Some? {
        eventos := list.value;
      }
    }

    /** The `reload_actividades` signal: when true the activities are
        reloaded and the signal reset to false; otherwise nothing happens. */
    method OnReload(signal: bool, call: Call<string>, parse: string -> Option<Json>) returns (newSignal: bool)
      modifies this
      ensures !newSignal && eventos == old(eventos)
      ensures !signal ==> actividades == old(actividades)
      ensures signal && ActividadesOf(call, parse).Some? ==> actividades == ActividadesOf(call, parse).value
      ensures signal && ActividadesOf(call, parse).None? ==> actividades == old(actividades)
    {
      if signal {
        ReloadActividades(call, parse);
      }
      newSignal := false;
    }
  }

  /** The subtitle of an event card: the establishment name, or
      "Establecimiento" when it is blank. */
  function Subtitle(e: EventoUI): (r: string)
    ensures IsBlank(e.nombreEstablecimiento) ==> r == "Establecimiento"
    ensures !IsBlank(e.nombreEstablecimiento) ==> r == e.nombreEstablecimiento
  {
    if IsBlank(e.nombreEstablecimiento) then "Establecimiento" else e.nombreEstablecimiento
  }

  /** An event whose id is blank, or whose lookup fails, shows
      "Establecimiento" under its title. */
  lemma SubtitleOfUnknown(o: Json, fetch: string -> Call<Establecimiento>)
    requires var id := OptString(o, "id_establecimiento", ""); IsBlank(id) || !Delivered(fetch(id))
    ensures Subtitle(EventoOf(o, fetch)) == "Establecimiento"
  {
  }

  /** `formatDate(iso)`: "" for a blank text; the reformatted date when the
      ISO pattern parses it; the text itself otherwise. */
  function FormatDate(iso: string, reformat: string -> Option<string>): (r: string)
    ensures IsBlank(iso) ==> r == ""
    ensures !IsBlank(iso) && reformat(iso).None? ==> r == iso
    ensures !IsBlank(iso) && reformat(iso).Some? ==> r == reformat(iso).value
  {
    if IsBlank(iso) then ""
    else if reformat(iso).Some? then reformat(iso).value
    else iso
  }
}

/** The admin "Editar evento" screen (admin/EditarEventoScreen.kt): the form
    state, its load from the stored event, the pickers, `extractDateYMD`,
    and the partial-update body of the save button. Float parsing and
    printing and `SimpleDateFormat` are parameters; `reformat(p, s)` is the
    `yyyy-MM-dd` text of `s` parsed with pattern `p`, or None when that
    parse throws. */
module EditarEventoScreen {
  import opened Text
  import opened Json
  import opened Models
  import opened Http
  import opened Screen
  import opened Forms
  import opened Dates

  /** `Regex("^\\d{4}-\\d{2}-\\d{2}$").matches(s)`, without trimming. */
  predicate IsYmd(s: string) {
    Matches(YmdPattern, s)
  }

  /** The tail of `extractDateYMD` once a raw text was found: kept when it
      is already `yyyy-MM-dd`, else reformatted from the first ISO pattern
      when that parses, else kept as it is. */
  function YmdTail(raw: Option<string>, reformat: (string, string) -> Option<string>): (r: Option<string>)
    ensures raw.None? ==> r.None?
    ensures raw.Some? && IsYmd(raw.value) ==> r == raw
    ensures raw.Some? && !IsYmd(raw.value) ==>
      r == (if reformat(AdminPatterns[0], raw.value).Some? then reformat(AdminPatterns[0], raw.value) else raw)
  {
    if raw.None? then None
    else if IsYmd(raw.value) then raw
    else
      var f := reformat(AdminPatterns[0], raw.value);
      if f.Some? then f else raw
  }

  /** What `extractDateYMD(value)` answers. */
  function DateYmdOf(value: Value, reformat: (string, string) -> Option<string>): Option<string> {
    var raw := match value
      case VStr(s) => if IsYmd(s) then Some(s) else FirstParse(AdminPatterns, s, reformat)
      case VMap(m) => DateEntry(m)
      case _ => None;
    YmdTail(raw, reformat)
  }

  /** `extractDateYMD`, with its loop over the four ISO patterns. */
  method ExtractDateYMD(value: Value, reformat: (string, string) -> Option<string>) returns (r: Option<string>)
    ensures r == DateYmdOf(value, reformat)
  {
    var raw: Option<string>;
    match value {
      case VStr(s) =>
        if IsYmd(s) {
          raw := Some(s);
        } else {
          raw := TryPatterns(AdminPatterns, s, reformat);
        }
      case VMap(m) =>
        raw := DateEntry(m);
      case _ =>
        raw := None;
    }
    if raw.None? {
      return None;
    }
    if IsYmd(raw.value) {
      return raw;
    }
    var f := reformat(AdminPatterns[0], raw.value);
    if f.Some? {
      return f;
    }
    return raw;
  }

  /** A `yyyy-MM-dd` text comes back unchanged; a map is read at `$date`
      before `date`; any other kind of value gives null; and a result that
      was not reformatted is a text the value carried. */
  lemma DateYmdOfSpec(value: Value, reformat: (string, string) -> Option<string>)
    ensures value.VStr? && IsYmd(value.s) ==> DateYmdOf(value, reformat) == Some(value.s)
    ensures value.VMap? ==> DateYmdOf(value, reformat) == YmdTail(DateEntry(value.entries), reformat)
    ensures value.VNull? || value.VNum? || value.VObj? ==> DateYmdOf(value, reformat).None?
    ensures value.VStr? && DateYmdOf(value, reformat).Some? && !IsYmd(value.s) ==>
      exists i :: 0 <= i < |AdminPatterns| && reformat(AdminPatterns[i], value.s).Some?
  {
    if value.VStr? && !IsYmd(value.s) {
      FirstParseSpec(AdminPatterns, value.s, reformat);
    }
  }

  function OrEmpty(r: Option<string>): string {
    if r.Some? then r.value else ""
  }

  /** The date the load puts in the form, as written: `extractDateYMD` is
      handed the `FechaWrapper` object itself. */
  function LoadedFechaAsWritten(e: Evento, reformat: (string, string) -> Option<string>): string {
    OrEmpty(DateYmdOf(FechaValue(e.fecha), reformat))
  }

  /** A wrapper is neither a String nor a Map, so the date field always
      starts empty, even for a stored `2024-05-01`. */
  lemma LoadedFechaAsWrittenIsEmpty(e: Evento, reformat: (string, string) -> Option<string>)
    ensures LoadedFechaAsWritten(e, reformat) == ""
  {
  }

  /** The date the load puts in the form, reading the wrapper's `$date` text. */
  function LoadedFecha(e: Evento, reformat: (string, string) -> Option<string>): string {
    OrEmpty(DateYmdOf(VStr(e.fecha), reformat))
  }

  /** Read that way, a stored `yyyy-MM-dd` date is shown as it is. */
  lemma LoadedFechaShowsDate(e: Evento, reformat: (string, string) -> Option<string>)
    ensures IsYmd(e.fecha) ==> LoadedFecha(e, reformat) == e.fecha
  {
  }

  /** The change set of a save: name and description when their trimmed
      value is non-empty and differs from the stored one, the price when it
      differs, and a non-empty trimmed date or time always. */
  function EventoChanges(base: Evento, nombre: string, descripcion: string, p: real, fecha: string, hora: string): Body {
    EventoDiff(base, Trim(nombre), Trim(descripcion), p, Trim(fecha), Trim(hora))
  }

  /** The same, from the trimmed texts. */
  function EventoDiff(base: Evento, n: string, d: string, p: real, f: string, h: string): Body {
    var b0: Body := map[];
    var b1 := if n != "" && n != base.nombre then b0["nombre_evento" := TextField(n)] else b0;
    var b2 := if d != "" && d != base.descripcion then b1["descripcion_evento" := TextField(d)] else b1;
    var b3 := if p != base.precio then b2["precio" := PriceField(p)] else b2;
    var b4 := if f != "" then b3["fecha_evento" := TextField(f)] else b3;
    if h != "" then b4["hora_evento" := TextField(EnsureSeconds(h))] else b4
  }

  lemma EventoDiffKeys(base: Evento, n: string, d: string, p: real, f: string, h: string)
    ensures var b := EventoDiff(base, n, d, p, f, h);
      && (forall k :: k in b ==> k in ["nombre_evento", "descripcion_evento", "precio", "fecha_evento", "hora_evento"])
      && ("nombre_evento" in b <==> n != "" && n != base.nombre)
      && ("nombre_evento" in b ==> b["nombre_evento"] == TextField(n))
      && ("descripcion_evento" in b <==> d != "" && d != base.descripcion)
      && ("descripcion_evento" in b ==> b["descripcion_evento"] == TextField(d))
      && ("precio" in b <==> p != base.precio)
      && ("precio" in b ==> b["precio"] == PriceField(p))
      && ("fecha_evento" in b <==> f != "")
      && ("fecha_evento" in b ==> b["fecha_evento"] == TextField(f))
      && ("hora_evento" in b <==> h != "")
      && ("hora_evento" in b ==> b["hora_evento"] == TextField(EnsureSeconds(h)))
  {
  }

  /** The change set holds only the five event keys: name, description and
      price exactly when changed, date and time exactly when filled in (the
      time completed to `HH:MM:SS`), whatever the stored values. */
  lemma EventoChangesKeys(base: Evento, nombre: string, descripcion: string, p: real, fecha: string, hora: string)
    ensures var b := EventoChanges(base, nombre, descripcion, p, fecha, hora);
      && (forall k :: k in b ==> k in ["nombre_evento", "descripcion_evento", "precio", "fecha_evento", "hora_evento"])
      && ("nombre_evento" in b <==> Trim(nombre) != "" && Trim(nombre) != base.nombre)
      && ("nombre_evento" in b ==> b["nombre_evento"] == TextField(Trim(nombre)))
      && ("descripcion_evento" in b <==> Trim(descripcion) != "" && Trim(descripcion) != base.descripcion)
      && ("descripcion_evento" in b ==> b["descripcion_evento"] == TextField(Trim(descripcion)))
      && ("precio" in b <==> p != base.precio)
      && ("precio" in b ==> b["precio"] == PriceField(p))
      && ("fecha_evento" in b <==> Trim(fecha) != "")
      && ("fecha_evento" in b ==> b["fecha_evento"] == TextField(Trim(fecha)))
      && ("hora_evento" in b <==> Trim(hora) != "")
      && ("hora_evento" in b ==> b["hora_evento"] == TextField(EnsureSeconds(hora)))
  {
    var h := Trim(hora);
    TrimIdempotent(hora);
    assert EnsureSeconds(h) == EnsureSeconds(hora);
    EventoDiffKeys(base, Trim(nombre), Trim(descripcion), p, Trim(fecha), h);
  }

  /** What a partial update with `body` does to the stored event. */
  function PatchEvento(e: Evento, body: Body): Evento {
    e.(nombre := if "nombre_evento" in body && body["nombre_evento"].TextField? then body["nombre_evento"].s else e.nombre,
       descripcion := if "descripcion_evento" in body && body["descripcion_evento"].TextField?
                      then body["descripcion_evento"].s else e.descripcion,
       precio := if "precio" in body && body["precio"].PriceField? then body["precio"].x else e.precio,
       fecha := if "fecha_evento" in body && body["fecha_evento"].TextField? then body["fecha_evento"].s else e.fecha,
       hora := if "hora_evento" in body && body["hora_evento"].TextField? then body["hora_evento"].s else e.hora)
  }

  /** Applying the change set gives the event the form shows: trimmed
      texts, blank fields keeping the stored value, the parsed price, and
      the time with its seconds. */
  lemma PatchEventoChanges(base: Evento, nombre: string, descripcion: string, p: real, fecha: string, hora: string)
    ensures var e := PatchEvento(base, EventoChanges(base, nombre, descripcion, p, fecha, hora));
      && e.nombre == (if Trim(nombre) != "" then Trim(nombre) else base.nombre)
      && e.descripcion == (if Trim(descripcion) != "" then Trim(descripcion) else base.descripcion)
      && e.precio == p
      && e.fecha == (if Trim(fecha) != "" then Trim(fecha) else base.fecha)
      && e.hora == (if Trim(hora) != "" then EnsureSeconds(hora) else base.hora)
      && e.oid == base.oid && e.idEstablecimiento == base.idEstablecimiento
      && e.imagenUrl == base.imagenUrl && e.nombreEstablecimiento == base.nombreEstablecimiento
  {
    EventoChangesKeys(base, nombre, descripcion, p, fecha, hora);
  }

  /** The form state of the screen. */
  class EditarEvento {
    var evento: Option<Evento>
    var loading: bool
    var nombre: string
    var descripcion: string
    var precioText: string
    var fecha: string
    var hora: string

    constructor ()
      ensures evento.None? && loading
      ensures nombre == "" && descripcion == "" && precioText == "" && fecha == "" && hora == ""
    {
      evento := None;
      loading := true;
      nombre, descripcion, precioText, fecha, hora := "", "", "", "", "";
    }

    /** `LaunchedEffect(id)`, reading the stored date through its `$date`
        text (the corrected `LoadedFecha`, where the screen as written
        leaves the field empty: `LoadedFechaAsWrittenIsEmpty`); the time is
        completed with seconds. The `try` has only a `finally`: an exception
        ends `loading` and then crashes the screen (`crashed`). */
    method Load(call: Call<Evento>, show: real -> string, reformat: (string, string) -> Option<string>)
      returns (crashed: bool)
      modifies this
      ensures !loading
      ensures crashed <==> call.Threw?
      ensures call.Answered? ==> evento == call.body
      ensures crashed ==> evento == old(evento)
      ensures call.Answered? && call.body.Some? ==>
        var e := call.body.value;
        && nombre == e.nombre && descripcion == e.descripcion && precioText == show(e.precio)
        && fecha == LoadedFecha(e, reformat) && hora == EnsureSeconds(e.hora)
      ensures !(call.Answered? && call.body.Some?) ==>
        && nombre == old(nombre) && descripcion == old(descripcion) && precioText == old(precioText)
        && fecha == old(fecha) && hora == old(hora)
    {
      if call.Answered? {
        evento := call.body;
        if call.body.Some? {
          var e := call.body.value;
          nombre := e.nombre;
          descripcion := e.descripcion;
          precioText := show(e.precio);
          var f := ExtractDateYMD(VStr(e.fecha), reformat);
          fecha := OrEmpty(f);
          hora := EnsureSeconds(e.hora);
        }
      }
      crashed := call.Threw?;
      loading := false;
    }

    /** The date picker callback (month counted from 0). */
    method PickDate(y: int, m: int, d: int)
      modifies this
      ensures fecha == PickedDate(y, m, d)
      ensures evento == old(evento) && hora == old(hora) && nombre == old(nombre)
      ensures descripcion == old(descripcion) && precioText == old(precioText) && loading == old(loading)
    {
      fecha := PickedDate(y, m, d);
    }

    /** The time picker callback. */
    method PickTime(h: int, min: int)
      modifies this
      ensures hora == PickedTime(h, min)
      ensures evento == old(evento) && fecha == old(fecha) && nombre == old(nombre)
      ensures descripcion == old(descripcion) && precioText == old(precioText) && loading == old(loading)
    {
      hora := PickedTime(h, min);
    }

    /** The save button: nothing without a loaded event; an unparseable
        price (after `,` becomes `.`), then a filled-in date that is not
        `yyyy-MM-dd`, is refused; an empty change set is refused; otherwise
        the change set is sent. */
    method Save(parse: string -> Option<real>) returns (r: Submit<Body>)
      ensures evento.None? ==> r == Ignored
      ensures evento.Some? && parse(ReplaceChar(precioText, ',', '.')).None? ==> r == Rejected("Precio inválido")
      ensures (evento.Some? && parse(ReplaceChar(precioText, ',', '.')).Some?
               && Trim(fecha) != "" && !IsYyyyMmDd(fecha)) ==> r == Rejected("Fecha debe ser YYYY-MM-DD")
      ensures (evento.Some? && parse(ReplaceChar(precioText, ',', '.')).Some?
               && (Trim(fecha) == "" || IsYyyyMmDd(fecha))) ==>
        var b := EventoChanges(evento.value, nombre, descripcion, parse(ReplaceChar(precioText, ',', '.')).value, fecha, hora);
        (b == map[] ==> r == Rejected("No hay cambios")) && (b != map[] ==> r == Send(b))
    {
      if evento.None? {
        return Ignored;
      }
      var base := evento.value;
      var body: Body := map[];
      var n := Trim(nombre);
      if n != "" && n != base.nombre {
        body := body["nombre_evento" := TextField(n)];
      }
      var d := Trim(descripcion);
      if d != "" && d != base.descripcion {
        body := body["descripcion_evento" := TextField(d)];
      }
      var p := parse(ReplaceChar(precioText, ',', '.'));
      if p.None? {
        return Rejected("Precio inválido");
      } else if p.value != base.precio {
        body := body["precio" := PriceField(p.value)];
      }
      var f := Trim(fecha);
      if f != "" {
        TrimIdempotent(fecha);
        assert IsYyyyMmDd(f) == IsYyyyMmDd(fecha);
        if !IsYyyyMmDd(f) {
          return Rejected("Fecha debe ser YYYY-MM-DD");
        }
        body := body["fecha_evento" := TextField(f)];
      }
      var h := Trim(hora);
      if h != "" {
        body := body["hora_evento" := TextField(EnsureSeconds(h))];
      }
      assert body == EventoDiff(base, n, d, p.value, f, h);
      if body == map[] {
        return Rejected("No hay cambios");
      }
      return Send(body);
    }
  }
}

/** The admin event detail screen (admin/DatosEventosScreen.kt): the date
    and price texts of its rows, the "—" fallback of a row, the screen
    state after loading, and the answer to a delete. Formatting a parsed
    date or a currency amount is a parameter. */
module DatosEventosScreen {
  import opened Text
  import opened Json
  import opened Models
  import opened Http
  import opened Screen
  import opened Urls
  import opened Dates

  const Dash: string := "—"

  /** The characters that end the text after `date=`. */
  const DateEnd: set<char> := {'}', ',', ')'}

  /** The text after the first `date=` of `s`, up to the first `}`, `,` or
      `)` (or the end), trimmed and stripped of `"`; None without `date=`. */
  function AfterDateKey(s: string): (r: Option<string>)
    ensures r.None? <==> IndexOfFrom(s, "date=", 0) < 0
  {
    var i := IndexOfFrom(s, "date=", 0);
    if i < 0 then None
    else
      var start := i + 5;
      var found := IndexOfAnyFrom(s, DateEnd, start);
      var end := if found == -1 then |s| else found;
      Some(TrimChar(Trim(s[start..end]), '"'))
  }

  /** The `when` of `formatDate`: the text a value is read as, or None
      where the function returns "—". */
  function IsoOf(value: Value): (r: Option<string>)
    ensures value.VStr? ==> r == Some(value.s)
    ensures value.VMap? ==> r == DateEntry(value.entries)
    ensures value.VNull? ==> r.None?
  {
    match value
    case VStr(s) => Some(s)
    case VMap(m) => DateEntry(m)
    case VNull => None
    case VNum(_, text) => AfterDateKey(text)
    case VObj(text) => AfterDateKey(text)
  }

  /** `formatDate(value)`: the text read from the value, reformatted by the
      first of the four input patterns that parses it, or returned as it is. */
  function FormatDateOf(value: Value, reformat: (string, string) -> Option<string>): string {
    match IsoOf(value)
    case None => Dash
    case Some(iso) =>
      match FirstParse(AdminPatterns, iso, reformat)
      case Some(d) => d
      case None => iso
  }

  /** `formatDate`, with its loop over the patterns. */
  method FormatDate(value: Value, reformat: (string, string) -> Option<string>) returns (r: string)
    ensures r == FormatDateOf(value, reformat)
  {
    var iso := IsoOf(value);
    if iso.None? {
      return Dash;
    }
    var out := TryPatterns(AdminPatterns, iso.value, reformat);
    r := if out.Some? then out.value else iso.value;
  }

  /** Text no pattern parses is shown as it was read; text some pattern
      parses is shown as the earliest such pattern formats it. */
  lemma FormatDateSpec(value: Value, reformat: (string, string) -> Option<string>)
    requires IsoOf(value).Some?
    ensures var iso := IsoOf(value).value;
      && ((forall i :: 0 <= i < |AdminPatterns| ==> reformat(AdminPatterns[i], iso).None?) ==>
            FormatDateOf(value, reformat) == iso)
      && (forall i :: (0 <= i < |AdminPatterns| && reformat(AdminPatterns[i], iso).Some?
                        && (forall j :: 0 <= j < i ==> reformat(AdminPatterns[j], iso).None?)) ==>
            FormatDateOf(value, reformat) == reformat(AdminPatterns[i], iso).value)
  {
    var iso := IsoOf(value).value;
    FirstParseSpec(AdminPatterns, iso, reformat);
    forall i | 0 <= i < |AdminPatterns| && reformat(AdminPatterns[i], iso).Some?
        && (forall j :: 0 <= j < i ==> reformat(AdminPatterns[j], iso).None?)
      ensures FormatDateOf(value, reformat) == reformat(AdminPatterns[i], iso).value
    {
      var k :| 0 <= k < |AdminPatterns| && FirstParse(AdminPatterns, iso, reformat) == reformat(AdminPatterns[k], iso)
        && forall j :: 0 <= j < k ==> reformat(AdminPatterns[j], iso).None?;
      assert k == i;
    }
  }

  /** A value without `date=` in its text, or a null, shows "—". */
  lemma FormatDateDash(value: Value, reformat: (string, string) -> Option<string>)
    requires value.VNull? || ((value.VNum? || value.VObj?) && IndexOfFrom(value.text, "date=", 0) < 0)
    ensures FormatDateOf(value, reformat) == Dash
  {
  }

  /** Text that starts and ends with neither whitespace nor `"` is left as it
      is by `trim().trim('"')`. */
  lemma TrimQuotesOfSolid(d: string)
    requires d == [] || (!IsWhitespace(d[0]) && !IsWhitespace(d[|d| - 1]) && d[0] != '"' && d[|d| - 1] != '"')
    ensures TrimChar(Trim(d), '"') == d
  {
    if d == [] {
      TrimUnique(d, 0, 0);
    } else {
      TrimOfSolid(d);
    }
    assert TrimCharStart(d, '"') == d;
    assert TrimCharEnd(d, '"') == d;
  }

  /** The text of a `FechaWrapper` has its first `date=` at index 13... */
  lemma FechaKeyAt(d: string)
    ensures IndexOfFrom(FechaValue(d).text, "date=", 0) == 13
  {
    var s := FechaValue(d).text;
    var head := "FechaWrapper(";
    assert s == head + "date=" + d + ")";
    assert OccursAt(s, "date=", 13) by { assert s[13..18] == "date="; }
    forall k: nat | k < 13 ensures !OccursAt(s, "date=", k) {
      assert s[k] == head[k] && head[k] != 'd';
      assert s[k..k + 5][0] == s[k];
    }
  }

  /** ... and the date ends at the closing `)` when it holds none of `}`, `,`, `)`. */
  lemma FechaEndAt(d: string)
    requires forall k :: 0 <= k < |d| ==> d[k] !in DateEnd
    ensures IndexOfAnyFrom(FechaValue(d).text, DateEnd, 18) == 18 + |d|
    ensures FechaValue(d).text[18..18 + |d|] == d
  {
    var s := FechaValue(d).text;
    assert s == "FechaWrapper(date=" + d + ")";
    assert s[18 + |d|] == ')';
    forall k | 18 <= k < 18 + |d| ensures s[k] !in DateEnd {
      assert s[k] == d[k - 18];
    }
  }

  /** The event rows read `fecha_evento`, a `FechaWrapper`: its text is
      `FechaWrapper(date=<d>)`, so a date with no `}`, `,` or `)` and no
      surrounding blanks or quotes is read back exactly. */
  lemma FechaRecovered(d: string)
    requires forall k :: 0 <= k < |d| ==> d[k] !in DateEnd
    requires d == [] || (!IsWhitespace(d[0]) && !IsWhitespace(d[|d| - 1]) && d[0] != '"' && d[|d| - 1] != '"')
    ensures IsoOf(FechaValue(d)) == Some(d)
  {
    FechaKeyAt(d);
    FechaEndAt(d);
    TrimQuotesOfSolid(d);
  }

  /** `formatPrice(value)`: a number is formatted; a string is formatted when
      `toDoubleOrNull` reads it; anything else is "—". */
  function FormatPrice(value: Value, parse: string -> Option<real>, currency: real -> string): (r: string)
    ensures value.VNum? ==> r == currency(value.x)
    ensures value.VStr? && parse(value.s).None? ==> r == Dash
    ensures value.VStr? && parse(value.s).Some? ==> r == currency(parse(value.s).value)
    ensures value.VNull? || value.VMap? || value.VObj? ==> r == Dash
  {
    match value
    case VNum(x, _) => currency(x)
    case VStr(s) => if parse(s).Some? then currency(parse(s).value) else Dash
    case _ => Dash
  }

  /** `KeyValueRow`: a null value is shown as "—". */
  function RowValue(value: Option<string>): (r: string)
    ensures value.Some? ==> r == value.value
    ensures value.None? ==> r == Dash
  {
    if value.Some? then value.value else Dash
  }

  /** The top bar title: the event's name, "Evento" until one is loaded. */
  function Titulo(evento: Option<Evento>): (r: string)
    ensures evento.None? ==> r == "Evento"
    ensures evento.Some? ==> r == evento.value.nombre
  {
    if evento.Some? then evento.value.nombre else "Evento"
  }

  /** What the screen shows. */
  datatype Content =
    | Loading
    | NotFound
    | Detail(titulo: string, imagen: string, fecha: string, hora: string, precio: string, descripcion: string)

  /** The screen's body for its state. `hora` and `descripcion` may be null
      in the decoded record, hence the options. */
  function ContentOf(loading: bool, evento: Option<Evento>, hora: Option<string>, descripcion: Option<string>,
                     reformat: (string, string) -> Option<string>, currency: real -> string): Content
  {
    if loading then Loading
    else if evento.None? then NotFound
    else
      var e := evento.value;
      Detail(e.nombre,
             BuildImageUrl(PlainDefaultPng, Some(e.imagenUrl)),
             FormatDateOf(FechaValue(e.fecha), reformat),
             RowValue(hora),
             FormatPrice(VNum(e.precio, ""), _ => None, currency),
             RowValue(descripcion))
  }

  /** A loaded event whose stored date is plain text with no `}`, `,` or
      `)` shows that date reformatted by the first pattern that parses it,
      or the date itself; its price is always formatted, never "—". */
  lemma DetailOfEvento(e: Evento, hora: Option<string>, descripcion: Option<string>,
                       reformat: (string, string) -> Option<string>, currency: real -> string)
    requires forall k :: 0 <= k < |e.fecha| ==> e.fecha[k] !in DateEnd
    requires e.fecha == [] || (!IsWhitespace(e.fecha[0]) && !IsWhitespace(e.fecha[|e.fecha| - 1])
                               && e.fecha[0] != '"' && e.fecha[|e.fecha| - 1] != '"')
    ensures var c := ContentOf(false, Some(e), hora, descripcion, reformat, currency);
      && c.Detail?
      && c.fecha == (match FirstParse(AdminPatterns, e.fecha, reformat)
                     case Some(d) => d
                     case None => e.fecha)
      && c.precio == currency(e.precio)
      && (hora.None? ==> c.hora == Dash)
  {
    FechaRecovered(e.fecha);
  }

  class DatosEventos {
    var evento: Option<Evento>
    var loading: bool
    var showDeleteConfirm: bool

    constructor()
      ensures evento.None? && loading && !showDeleteConfirm
    {
      evento := None;
      loading := true;
      showDeleteConfirm := false;
    }

    /** The launch effect: `evento = resp.body()` whatever the status (a
        failed call has no body), and `loading` cleared in `finally`. The
        `try` has no `catch`: an exception crashes the screen (`crashed`). */
    method Load(call: Call<Evento>) returns (crashed: bool)
      modifies this
      ensures crashed <==> call.Threw?
      ensures call.Answered? ==> evento == call.body
      ensures crashed ==> evento == old(evento)
      ensures !loading && showDeleteConfirm == old(showDeleteConfirm)
    {
      if call.Answered? {
        evento := call.body;
      }
      crashed := call.Threw?;
      loading := false;
    }
  }

  /** After a delete: a 2xx status pops back; otherwise the screen stays. */
  function AfterDelete(call: Call<Json>): (r: Next)
    ensures r.Pop? <==> call.Answered? && IsSuccessful(call.code)
    ensures r.Pop? ==> r.flag.None?
  {
    PopOnSuccess(call, None)
  }
}

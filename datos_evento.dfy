/** The user event detail screen (user/DatosEventoScreen.kt): the event's
    date as milliseconds, its short date chip, the chips shown, the title,
    the header image, and the "more events" choice. `SimpleDateFormat`
    parsing and formatting are parameters: `attempt(p, s)` is the time in
    milliseconds pattern `p` reads from `s` (None when it throws), `fmt(ms)`
    the "d MMM yyyy" text of an instant. */
module DatosEventoScreen {
  import opened Text
  import opened Json
  import opened Models
  import opened Dates
  import opened Urls
  import opened Screen
  import opened MoreItems

  /** `Long.MAX_VALUE`. */
  const LongMax: int := 0x7FFF_FFFF_FFFF_FFFF

  /** `toLongOrNull` on a string of digits: null when empty or above the
      range of a `Long`. */
  function ToLongOrNull(s: string): (r: Option<int>)
    requires AllDigits(s)
    ensures r.Some? ==> s != [] && 0 <= r.value <= LongMax
  {
    if s == [] || DigitsValue(s) > LongMax then None else Some(DigitsValue(s))
  }

  /** The patterns tried, in order, on a date that is not all digits. */
  const FechaPatterns: seq<string> := [
    "yyyy-MM-dd'T'HH:mm:ss.SSS'Z'",
    "yyyy-MM-dd'T'HH:mm:ss'Z'",
    "yyyy-MM-dd'T'HH:mm:ss.SSSXXX",
    "yyyy-MM-dd'T'HH:mm:ssXXX",
    "yyyy-MM-dd HH:mm:ss"
  ]

  /** `parseFechaMillis`: `raw` is the wrapper's `date` (None when the
      wrapper or its date is null). */
  function FechaMillis(raw: Option<string>, attempt: (string, string) -> Option<int>): Option<int> {
    if raw.None? then None
    else if AllDigits(raw.value) then ToLongOrNull(raw.value)
    else FirstParse(FechaPatterns, raw.value, attempt)
  }

  /** The function as the source writes it: a digit test, then a loop over
      the patterns with an early return. */
  method ParseFechaMillis(raw: Option<string>, attempt: (string, string) -> Option<int>) returns (r: Option<int>)
    ensures r == FechaMillis(raw, attempt)
  {
    if raw.None? {
      return None;
    }
    var s := raw.value;
    if AllDigits(s) {
      return ToLongOrNull(s);
    }
    r := TryPatterns(FechaPatterns, s, attempt);
  }

  /** No date, or an empty one, gives no instant. */
  lemma FechaMillisAbsent(attempt: (string, string) -> Option<int>)
    ensures FechaMillis(None, attempt).None?
    ensures FechaMillis(Some(""), attempt).None?
  {
  }

  /** Epoch milliseconds written in decimal are read back as they are, as
      long as they fit in a `Long`; longer digit strings give no instant. */
  lemma FechaMillisDigits(n: nat, attempt: (string, string) -> Option<int>)
    ensures n <= LongMax ==> FechaMillis(Some(NatToString(n)), attempt) == Some(n)
    ensures n > LongMax ==> FechaMillis(Some(NatToString(n)), attempt).None?
  {
    NatToStringValue(n);
  }

  /** A date that is not all digits gives an instant exactly when one of
      the five patterns reads it, and then the one the earliest such
      pattern reads. */
  lemma FechaMillisPatterns(s: string, attempt: (string, string) -> Option<int>)
    requires !AllDigits(s)
    ensures FechaMillis(Some(s), attempt).Some? <==>
      exists i :: 0 <= i < |FechaPatterns| && attempt(FechaPatterns[i], s).Some?
    ensures FechaMillis(Some(s), attempt).Some? ==>
      exists i :: 0 <= i < |FechaPatterns| && FechaMillis(Some(s), attempt) == attempt(FechaPatterns[i], s)
        && forall j :: 0 <= j < i ==> attempt(FechaPatterns[j], s).None?
  {
    FirstParseSpec(FechaPatterns, s, attempt);
  }

  /** `formatFechaCorta`: "" without an instant. */
  function FormatFechaCorta(ms: Option<int>, fmt: int -> string): (r: string)
    ensures ms.None? ==> r == ""
    ensures ms.Some? ==> r == fmt(ms.value)
  {
    if ms.None? then "" else fmt(ms.value)
  }

  /** The chips under the title: the establishment's name always, the date
      when its text is not blank, the time when `hora_evento` is not
      blank. */
  datatype Chips = Chips(lugar: string, fecha: Option<string>, hora: Option<string>)

  function ChipsOf(nombre: string, evento: Option<Evento>, fechaChip: string): (c: Chips)
    ensures c.lugar == nombre
    ensures c.fecha.Some? <==> !IsBlank(fechaChip)
    ensures c.fecha.Some? ==> c.fecha.value == fechaChip
    ensures c.hora.Some? <==> evento.Some? && !IsBlank(evento.value.hora)
    ensures c.hora.Some? ==> c.hora.value == evento.value.hora
  {
    Chips(nombre,
          if IsBlank(fechaChip) then None else Some(fechaChip),
          if evento.Some? && !IsBlank(evento.value.hora) then Some(evento.value.hora) else None)
  }

  /** An event without a readable date shows no date chip. */
  lemma NoInstantNoDateChip(nombre: string, evento: Option<Evento>, raw: Option<string>,
                            attempt: (string, string) -> Option<int>, fmt: int -> string)
    requires FechaMillis(raw, attempt).None?
    ensures ChipsOf(nombre, evento, FormatFechaCorta(FechaMillis(raw, attempt), fmt)).fecha.None?
  {
  }

  /** The top bar title. */
  function Title(nombre: string): (r: string)
    ensures |r| == |"Evento en "| + |nombre| && r[|"Evento en "|..] == nombre
  {
    "Evento en " + nombre
  }

  /** The header image: the event's image on the emulator host, `default.png`
      for a missing or blank path. */
  function HeaderImage(evento: Option<Evento>): string {
    BuildImageUrl(EmulatedDefaultPng, if evento.Some? then Some(evento.value.imagenUrl) else None)
  }

  lemma HeaderImageOnEmulator(evento: Option<Evento>)
    ensures !ContainsLoopback(HeaderImage(evento))
    ensures evento.None? ==> HeaderImage(evento) == EmulatorBaseUrl + PhotosDir + Emulatorize("default.png")
  {
    EmulatedNoLoopback(EmulatedDefaultPng, if evento.Some? then Some(evento.value.imagenUrl) else None);
    EmulatedImageUrl("default.png", if evento.Some? then Some(evento.value.imagenUrl) else None);
  }

  /** A click on another event: the handle is rewritten and the screen opens
      again (single top) on "datos_evento". */
  method ChooseEvento(back: SavedStateHandle?, shown: Shown<Evento>, e: Evento,
                      encodeOne: Evento -> string, encodeList: seq<Evento> -> string) returns (next: Next)
    modifies back
    ensures back != null ==>
      back.values == Handed(old(back.values), EventoKeys, shown, e, encodeOne, encodeList)
    ensures next == Navigate("datos_evento")
  {
    Choose(back, EventoKeys, shown, e, encodeOne, encodeList);
    next := Navigate("datos_evento");
  }
}

/** The user home screen (user/InicioUsuarioScreen.kt): the two ranked
    establishment lists it loads, its four filter chips, the card click and
    the card texts. An answer body is given as the org.json tree it parses
    to; Gson's decoding of one establishment object is a parameter `gson`
    (None when it throws). */
module InicioUsuarioScreen {
  import opened Text
  import opened Json
  import opened Models
  import opened Http
  import opened Urls

  /** One `Triple(establecimiento, rating, reviews)`. */
  datatype Ranked = Ranked(est: Establecimiento, rating: real, reviews: int)

  /** One element `[establishment, rating, count]`: `getJSONArray(i)`,
      then `getJSONObject(0)`, `getDouble(1)` and `getInt(2)`; None when
      any of them throws. Extra elements are ignored. */
  function RankedOf(sub: Json, gson: Json -> Option<Establecimiento>): (r: Option<Ranked>)
    ensures r.Some? <==>
      sub.JArr? && |sub.items| >= 3 && sub.items[0].JObj? && sub.items[1].JNum? && sub.items[2].JNum?
      && gson(sub.items[0]).Some?
    ensures r.Some? ==>
      r.value == Ranked(gson(sub.items[0]).value, sub.items[1].n, Truncate(sub.items[2].n))
  {
    if sub.JArr? && |sub.items| >= 3 && sub.items[0].JObj? && sub.items[1].JNum? && sub.items[2].JNum?
       && gson(sub.items[0]).Some?
    then Some(Ranked(gson(sub.items[0]).value, sub.items[1].n, Truncate(sub.items[2].n)))
    else None
  }

  /** `(0 until arr.length()).map { ... }`: one triple per element, in
      order; the first element that throws makes the whole list throw. */
  function DecodeRanked(items: seq<Json>, gson: Json -> Option<Establecimiento>): (r: Option<seq<Ranked>>)
    ensures r.Some? <==> forall i :: 0 <= i < |items| ==> RankedOf(items[i], gson).Some?
    ensures r.Some? ==> |r.value| == |items|
    ensures r.Some? ==> forall i :: 0 <= i < |items| ==> r.value[i] == RankedOf(items[i], gson).value
    decreases |items|
  {
    if items == [] then Some([])
    else
      var h := RankedOf(items[0], gson);
      var t := DecodeRanked(items[1..], gson);
      if h.None? || t.None? then None else Some([h.value] + t.value)
  }

  /** What one of the two calls does to its list: nothing (a failure
      status or a null body), a new list, or an exception that ends the
      launch effect (from the call, from `JSONArray(raw)` on a body that is
      not an array, or from the decoding). */
  datatype Step = Kept | Replaced(list: seq<Ranked>) | Thrown

  function LoadStep(call: Call<Json>, gson: Json -> Option<Establecimiento>): (s: Step)
    ensures s.Kept? <==> call.Answered? && !Delivered(call)
    ensures s.Replaced? ==>
      Delivered(call) && call.body.value.JArr? && DecodeRanked(call.body.value.items, gson) == Some(s.list)
    ensures Delivered(call) && call.body.value.JArr? && DecodeRanked(call.body.value.items, gson).Some? ==> s.Replaced?
  {
    if call.Threw? then Thrown
    else if !Delivered(call) then Kept
    else if !call.body.value.JArr? then Thrown
    else
      var d := DecodeRanked(call.body.value.items, gson);
      if d.None? then Thrown else Replaced(d.value)
  }

  /** The four chips; only their index matters. */
  const ChipCount: int := 4

  class InicioUsuario {
    var mejores: seq<Ranked>
    var paraTi: seq<Ranked>
    var selectedChip: int

    /** The selected chip is always one of the four. */
    predicate Valid()
      reads this
    {
      0 <= selectedChip < ChipCount
    }

    constructor ()
      ensures Valid()
      ensures mejores == [] && paraTi == [] && selectedChip == 0
    {
      mejores, paraTi := [], [];
      selectedChip := 0;
    }

    /** The launch effect: the best-rated list, then the personalised one;
      an exception stops it where it happens. */
    method Load(rMejores: Call<Json>, rPrefs: Call<Json>, gson: Json -> Option<Establecimiento>)
      modifies this
      ensures selectedChip == old(selectedChip)
      ensures var s := LoadStep(rMejores, gson);
        mejores == (if s.Replaced? then s.list else old(mejores))
      ensures var s1 := LoadStep(rMejores, gson); var s2 := LoadStep(rPrefs, gson);
        paraTi == (if !s1.Thrown? && s2.Replaced? then s2.list else old(paraTi))
    {
      var s1 := LoadStep(rMejores, gson);
      if s1.Thrown? {
        return;
      }
      if s1.Replaced? {
        mejores := s1.list;
      }
      var s2 := LoadStep(rPrefs, gson);
      if s2.Thrown? {
        return;
      }
      if s2.Replaced? {
        paraTi := s2.list;
      }
    }

    /** `FilterChip(selected = selectedChip == index)`. */
    predicate ChipSelected(index: int)
      reads this
    {
      selectedChip == index
    }

    /** A chip click: that chip, and only it, is selected afterwards. */
    method ClickChip(index: int)
      requires Valid() && 0 <= index < ChipCount
      modifies this
      ensures Valid()
      ensures selectedChip == index
      ensures forall k :: 0 <= k < ChipCount ==> (ChipSelected(k) <==> k == index)
      ensures mejores == old(mejores) && paraTi == old(paraTi)
    {
      selectedChip := index;
    }
  }

  /** A delivered array body whose every element decodes gives one triple
      per element, in order, with the element's rating and truncated
      count. */
  lemma LoadedTriples(call: Call<Json>, gson: Json -> Option<Establecimiento>)
    requires Delivered(call) && call.body.value.JArr?
    requires forall i :: 0 <= i < |call.body.value.items| ==> RankedOf(call.body.value.items[i], gson).Some?
    ensures LoadStep(call, gson).Replaced?
    ensures var items := call.body.value.items; var l := LoadStep(call, gson).list;
      |l| == |items| && forall i :: 0 <= i < |items| ==>
        l[i].rating == items[i].items[1].n && l[i].reviews == Truncate(items[i].items[2].n)
  {
  }

  /** The address line of a card: "C. ", at most the first twelve
      characters of the name, ", 1". */
  function ShortAddress(e: Establecimiento): (r: string)
    ensures var k := if |e.nombre| < 12 then |e.nombre| else 12;
      && |r| == 6 + k
      && r[..3] == "C. "
      && r[3..3 + k] == e.nombre[..k]
      && r[3 + k..] == ", 1"
  {
    "C. " + Take(e.nombre, 12) + ", 1"
  }

  /** A card click: the establishment's detail route, only for a non-blank
      id. */
  function CardRoute(e: Establecimiento): (r: Option<string>)
    ensures r.Some? <==> !IsBlank(e.Id())
    ensures r.Some? ==> r.value == "inicio_usuario_establecimiento/" + e.Id()
  {
    if IsBlank(e.Id()) then None else Some("inicio_usuario_establecimiento/" + e.Id())
  }

  /** An establishment decoded without `_id` leads nowhere. */
  lemma NoIdNoRoute(e: Establecimiento)
    requires e.oid.None?
    ensures CardRoute(e).None?
  {
    assert IsBlank("");
  }

  /** A card's picture, on the emulator host. */
  function CardImage(e: Establecimiento): string {
    BuildImageUrl(EmulatedDefaultEstablecimiento, Some(e.imagenUrl))
  }

  lemma CardImageOnEmulator(e: Establecimiento)
    ensures !ContainsLoopback(CardImage(e))
    ensures IsBlank(e.imagenUrl) ==>
      CardImage(e) == EmulatorBaseUrl + PhotosDir + Emulatorize("default_establecimiento.png")
  {
    EmulatedNoLoopback(EmulatedDefaultEstablecimiento, Some(e.imagenUrl));
    EmulatedImageUrl("default_establecimiento.png", Some(e.imagenUrl));
  }
}

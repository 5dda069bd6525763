/** The "more events" / "more offers" strip of the user event and offer
    detail screens (user/DatosEventoScreen.kt, user/DatosOfertaScreen.kt).
    A detail screen receives its record, the other records of the same
    establishment and the establishment's name as JSON strings in the
    saved-state handle of the previous back-stack entry; choosing another
    record writes the three values back and opens the screen again. Gson's
    `toJson`/`fromJson` are parameters. */
module MoreItems {
  import opened Text
  import opened Json
  import opened Ambientes

  /** The saved-state handle of the previous back-stack entry: string
      values by key. */
  class SavedStateHandle {
    var values: map<string, string>

    constructor (init: map<string, string>)
      ensures values == init
    {
      values := init;
    }
  }

  /** The three handle keys one detail screen uses. */
  datatype Keys = Keys(selected: string, others: string, nombre: string)

  predicate DistinctKeys(k: Keys) {
    k.selected != k.others && k.selected != k.nombre && k.others != k.nombre
  }

  /** What a detail screen shows: its record (null when absent or when Gson
      gives null), the other records and the establishment's name. */
  datatype Shown<T> = Shown(current: Option<T>, others: seq<T>, nombre: string)

  /** The establishment name argument, "Establecimiento" when absent. */
  function NombreOrDefault(arg: Option<string>): (r: string)
    ensures arg.Some? ==> r == arg.value
    ensures arg.None? ==> r == "Establecimiento"
  {
    if arg.Some? then arg.value else "Establecimiento"
  }

  /** The other records: none for a null or blank JSON text. */
  function OthersFrom<T>(json: Option<string>, decodeList: string -> seq<T>): (r: seq<T>)
    ensures json.None? ==> r == []
    ensures json.Some? && IsBlank(json.value) ==> r == []
    ensures json.Some? && !IsBlank(json.value) ==> r == decodeList(json.value)
  {
    if json.None? || IsBlank(json.value) then [] else decodeList(json.value)
  }

  function Lookup(values: map<string, string>, key: string): Option<string> {
    if key in values then Some(values[key]) else None
  }

  /** What the screen reads from the handle when it opens. A missing
      previous entry reads like an empty handle. */
  function Arrival<T>(values: map<string, string>, keys: Keys, decodeOne: string -> Option<T>,
                      decodeList: string -> seq<T>): (s: Shown<T>)
    ensures keys.selected !in values ==> s.current.None?
    ensures keys.nombre !in values ==> s.nombre == "Establecimiento"
    ensures keys.others !in values ==> s.others == []
  {
    var sel := Lookup(values, keys.selected);
    Shown(if sel.Some? then decodeOne(sel.value) else None,
          OthersFrom(Lookup(values, keys.others), decodeList),
          NombreOrDefault(Lookup(values, keys.nombre)))
  }

  /** The new list of other records after `chosen` is picked:
      `otros.filter { it != chosen }` followed by the current record when
      there is one. */
  function Rotated<T(==,!new)>(otros: seq<T>, chosen: T, current: Option<T>): (r: seq<T>)
    ensures forall y :: y in r <==> (y in otros && y != chosen) || current == Some(y)
    ensures current.Some? ==> r != [] && r[|r| - 1] == current.value
  {
    Remove(otros, chosen) + (if current.Some? then [current.value] else [])
  }

  /** Filtering a list with one more element at its end filters the list,
      then keeps that element unless it is the one removed. */
  lemma {:induction false} RemoveSnoc<T(!new)>(s: seq<T>, y: T, x: T)
    ensures Remove(s + [y], x) == Remove(s, x) + (if y == x then [] else [y])
    decreases |s|
  {
    if s == [] {
      assert s + [y] == [y];
      assert Remove([y], x) == (if y == x then [] else [y]) + Remove([], x);
    } else {
      var head := if s[0] == x then [] else [s[0]];
      assert (s + [y])[0] == s[0];
      assert (s + [y])[1..] == s[1..] + [y];
      RemoveSnoc(s[1..], y, x);
      assert Remove(s + [y], x) == head + Remove(s[1..] + [y], x);
      assert Remove(s, x) == head + Remove(s[1..], x);
    }
  }

  /** The `buildList { otros.filter { it != chosen }.forEach { add(it) };
      current?.let { add(it) } }` loop. */
  method RotateOthers<T(==,!new)>(otros: seq<T>, chosen: T, current: Option<T>) returns (r: seq<T>)
    ensures r == Rotated(otros, chosen, current)
  {
    r := [];
    var i := 0;
    while i < |otros|
      invariant 0 <= i <= |otros|
      invariant r == Remove(otros[..i], chosen)
    {
      assert otros[..i + 1] == otros[..i] + [otros[i]];
      RemoveSnoc(otros[..i], otros[i], chosen);
      if otros[i] != chosen {
        r := r + [otros[i]];
      }
      i := i + 1;
    }
    assert otros[..i] == otros;
    if current.Some? {
      r := r + [current.value];
    }
  }

  /** The handle after a choice: the chosen record, the rotated list and
      the establishment's name, each as written by `set`. */
  function Handed<T(==,!new)>(values: map<string, string>, keys: Keys, shown: Shown<T>, chosen: T,
                              encodeOne: T -> string, encodeList: seq<T> -> string): map<string, string>
  {
    values[keys.selected := encodeOne(chosen)]
          [keys.others := encodeList(Rotated(shown.others, chosen, shown.current))]
          [keys.nombre := shown.nombre]
  }

  /** A click on a mini card: the three `set` calls on the previous entry's
      handle (none when there is no previous entry). */
  method Choose<T(==,!new)>(back: SavedStateHandle?, keys: Keys, shown: Shown<T>, chosen: T,
                            encodeOne: T -> string, encodeList: seq<T> -> string)
    modifies back
    ensures back != null ==>
      back.values == Handed(old(back.values), keys, shown, chosen, encodeOne, encodeList)
  {
    if back != null {
      var nuevos := RotateOthers(shown.others, chosen, shown.current);
      back.values := back.values[keys.selected := encodeOne(chosen)];
      back.values := back.values[keys.others := encodeList(nuevos)];
      back.values := back.values[keys.nombre := shown.nombre];
    }
  }

  /** When Gson's text round-trips, the screen opened after a choice shows
      the chosen record, the rotated list and the same establishment
      name. */
  lemma ChooseArrives<T(!new)>(values: map<string, string>, keys: Keys, shown: Shown<T>, chosen: T,
                               encodeOne: T -> string, encodeList: seq<T> -> string,
                               decodeOne: string -> Option<T>, decodeList: string -> seq<T>)
    requires DistinctKeys(keys)
    requires decodeOne(encodeOne(chosen)) == Some(chosen)
    requires forall xs :: decodeList(encodeList(xs)) == xs && !IsBlank(encodeList(xs))
    ensures Arrival(Handed(values, keys, shown, chosen, encodeOne, encodeList), keys, decodeOne, decodeList)
      == Shown(Some(chosen), Rotated(shown.others, chosen, shown.current), shown.nombre)
  {
    var h := Handed(values, keys, shown, chosen, encodeOne, encodeList);
    assert Lookup(h, keys.selected) == Some(encodeOne(chosen));
    assert Lookup(h, keys.others) == Some(encodeList(Rotated(shown.others, chosen, shown.current)));
    assert Lookup(h, keys.nombre) == Some(shown.nombre);
  }

  lemma {:induction false} RemoveMultiset<T(!new)>(s: seq<T>, x: T)
    ensures multiset(Remove(s, x)) == multiset(s)[x := 0]
    decreases |s|
  {
    if s != [] {
      RemoveMultiset(s[1..], x);
      assert s == [s[0]] + s[1..];
      assert multiset(s) == multiset{s[0]} + multiset(s[1..]);
    }
  }

  /** Nothing but the chosen record leaves the strip: the rotated list holds
      every other record as often as before, plus the current one. */
  lemma RotatedMultiset<T(!new)>(otros: seq<T>, chosen: T, current: Option<T>)
    ensures multiset(Rotated(otros, chosen, current))
      == multiset(otros)[chosen := 0] + (if current.Some? then multiset{current.value} else multiset{})
  {
    RemoveMultiset(otros, chosen);
  }

  /** When the chosen record is listed once and a record is shown, the
      strip keeps its length and the record that was shown goes last; the
      shown record and the strip together hold the same records as
      before. */
  lemma RotationKeepsPool<T(!new)>(otros: seq<T>, chosen: T, current: T)
    requires multiset(otros)[chosen] == 1
    ensures |Rotated(otros, chosen, Some(current))| == |otros|
    ensures Rotated(otros, chosen, Some(current))[|otros| - 1] == current
    ensures multiset([chosen] + Rotated(otros, chosen, Some(current))) == multiset([current] + otros)
  {
    var r := Rotated(otros, chosen, Some(current));
    RotatedMultiset(otros, chosen, Some(current));
    var m := multiset(otros);
    assert m == m[chosen := 0] + multiset{chosen};
    assert |multiset(r)| == |m[chosen := 0]| + 1;
    assert |m| == |m[chosen := 0]| + 1;
  }

  const EventoKeys: Keys := Keys("evento_json", "otros_eventos_json", "establecimiento_nombre_arg")
  const OfertaKeys: Keys := Keys("oferta_json", "otras_ofertas_json", "establecimiento_nombre_arg")

  lemma ScreenKeysDistinct()
    ensures DistinctKeys(EventoKeys) && DistinctKeys(OfertaKeys)
  {
  }
}

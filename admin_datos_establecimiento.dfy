/** The admin establishment detail screen
    (admin/DatosEstablecimientoScreen.kt): the route data that is either an
    inline JSON object or an id, the JSON view of a fetched record, what
    the screen reads back from that view, the ambiente chips, the rating
    stars, the refresh and delete handlers, and the card clicks of the
    offer and event rows. */
module AdminDatosEstablecimientoScreen {
  import opened Text
  import opened Json
  import opened Models
  import opened Http
  import opened Screen
  import opened Ambientes
  import opened Urls

  // ----- route data -----

  /** The route data after `Uri.decode(data).trim()` is an inline object
      exactly when it starts with `{` and ends with `}`. */
  predicate IsJsonData(raw: string) {
    StartsWith(raw, "{") && EndsWith(raw, "}")
  }

  // ----- estToJson and the fields the screen reads -----

  /** `JSONArray(list)` of strings. */
  function StrArray(xs: seq<string>): (r: Json)
    ensures r.JArr? && |r.items| == |xs|
    ensures forall i :: 0 <= i < |xs| ==> r.items[i] == JStr(xs[i])
  {
    JArr(seq(|xs|, i requires 0 <= i < |xs| => JStr(xs[i])))
  }

  /** `estToJson`: `put` calls on a fresh object, each with a new key, so the
      members are in call order. The rating is `0.0`, the review count is
      the number of review ids and the reviews array is empty. */
  function EstToJson(est: Establecimiento): Json {
    JObj([
      ("_id", JObj([("$oid", JStr(est.Id()))])),
      ("cif", JStr(est.cif)),
      ("nombre_establecimiento", JStr(est.nombre)),
      ("ambiente", StrArray(est.ambiente)),
      ("ofertas", StrArray(est.ofertas)),
      ("eventos", StrArray(est.eventos)),
      ("imagen_url", JStr(est.imagenUrl)),
      ("rating", JNum(0.0, "0.0")),
      ("numero_reviews", JNum(|est.reviews| as real, IntToString(|est.reviews|))),
      ("reviews", JArr([]))
    ])
  }

  /** What the screen shows of a decoded object. */
  datatype EstView = EstView(
    nombre: string, imagen: string, ambientes: seq<string>, eventosIds: seq<string>,
    ofertasIds: seq<string>, rating: real, numeroReviews: int, reviews: seq<Json>, estId: string)

  /** The reads of lines 144-152, each with its fallback. */
  function View(decoded: Json): EstView {
    EstView(
      OptString(decoded, "nombre_establecimiento", ""),
      BuildImageUrl(PlainDefaultPng, Some(OptString(decoded, "imagen_url", "/_uploads/photos/default_establecimiento.png"))),
      ListOrEmpty(decoded, "ambiente"),
      ListOrEmpty(decoded, "eventos"),
      ListOrEmpty(decoded, "ofertas"),
      OptDouble(decoded, "rating", 0.0),
      OptInt(decoded, "numero_reviews", 0),
      match OptArray(decoded, "reviews") case Some(items) => items case None => [],
      OidOrEmpty(decoded))
  }

  /** The member list of `estToJson`, and where each key sits in it. */
  lemma EstToJsonAt(est: Establecimiento, i: nat, key: string)
    requires i < 10 && EstToJson(est).members[i].0 == key
    requires forall j :: 0 <= j < i ==> EstToJson(est).members[j].0 != key
    ensures Opt(EstToJson(est), key) == Some(EstToJson(est).members[i].1)
  {
    GetAt(EstToJson(est).members, i, key);
  }

  lemma StrArrayText(xs: seq<string>)
    ensures ToStringList(StrArray(xs).items) == xs
  {
  }

  lemma ViewNombre(est: Establecimiento)
    ensures OptString(EstToJson(est), "nombre_establecimiento", "") == est.nombre
  {
    EstToJsonAt(est, 2, "nombre_establecimiento");
  }

  lemma ViewImagen(est: Establecimiento)
    ensures OptString(EstToJson(est), "imagen_url", "/_uploads/photos/default_establecimiento.png") == est.imagenUrl
  {
    EstToJsonAt(est, 6, "imagen_url");
  }

  lemma ViewId(est: Establecimiento)
    ensures OidOrEmpty(EstToJson(est)) == est.Id()
  {
    EstToJsonAt(est, 0, "_id");
  }

  lemma ViewAmbiente(est: Establecimiento)
    ensures ListOrEmpty(EstToJson(est), "ambiente") == est.ambiente
  {
    EstToJsonAt(est, 3, "ambiente");
    StrArrayText(est.ambiente);
  }

  lemma ViewOfertas(est: Establecimiento)
    ensures ListOrEmpty(EstToJson(est), "ofertas") == est.ofertas
  {
    EstToJsonAt(est, 4, "ofertas");
    StrArrayText(est.ofertas);
  }

  lemma ViewEventos(est: Establecimiento)
    ensures ListOrEmpty(EstToJson(est), "eventos") == est.eventos
  {
    EstToJsonAt(est, 5, "eventos");
    StrArrayText(est.eventos);
  }

  lemma ViewRating(est: Establecimiento)
    ensures OptDouble(EstToJson(est), "rating", 0.0) == 0.0
  {
    EstToJsonAt(est, 7, "rating");
  }

  lemma ViewNumeroReviews(est: Establecimiento)
    ensures OptInt(EstToJson(est), "numero_reviews", 0) == |est.reviews|
  {
    EstToJsonAt(est, 8, "numero_reviews");
  }

  lemma ViewReviews(est: Establecimiento)
    ensures OptArray(EstToJson(est), "reviews") == Some([])
  {
    EstToJsonAt(est, 9, "reviews");
  }

  /** Reading back the JSON view of a fetched record gives the record's
      name, id, ambientes, offer and event ids and image, a rating of 0, a
      review count equal to its number of review ids, and no reviews. */
  lemma ViewOfEstToJson(est: Establecimiento)
    ensures var v := View(EstToJson(est));
      && v.nombre == est.nombre && v.estId == est.Id()
      && v.ambientes == est.ambiente && v.ofertasIds == est.ofertas && v.eventosIds == est.eventos
      && v.imagen == BuildImageUrl(PlainDefaultPng, Some(est.imagenUrl))
      && v.rating == 0.0 && v.numeroReviews == |est.reviews| && v.reviews == []
  {
    ViewNombre(est);
    ViewImagen(est);
    ViewId(est);
    ViewAmbiente(est);
    ViewOfertas(est);
    ViewEventos(est);
    ViewRating(est);
    ViewNumeroReviews(est);
    ViewReviews(est);
  }

  // ----- rating stars, dividers, chips -----

  /** `repeat(n)` runs its body `max(n, 0)` times. */
  function Repeats(n: int): nat {
    if n < 0 then 0 else n
  }

  /** `RatingStars(value)`: `floor(value)` filled stars, then `5 - floor(value)`
      empty ones. */
  function RatingStars(value: real): (r: (nat, nat)) {
    (Repeats(value.Floor), Repeats(5 - value.Floor))
  }

  /** For a rating in 0..5 the row always has five stars, as many filled
      as the whole part of the rating. */
  lemma RatingStarsSpec(value: real)
    requires 0.0 <= value <= 5.0
    ensures var (full, empty) := RatingStars(value);
      && full + empty == 5
      && full as real <= value < full as real + 1.0
  {
  }

  /** A divider follows review `index` of `count`. */
  predicate DividerAfter(index: int, count: int) {
    index < count - 1
  }

  lemma DividerAfterSpec(count: nat)
    ensures forall i :: 0 <= i < count ==> (DividerAfter(i, count) <==> i != count - 1)
  {
  }

  /** `titlecase()` of one character: `ß` becomes `Ss`. */
  function TitleCase(c: char): string {
    if c == 'ß' then "Ss" else [UpperChar(c)]
  }

  /** `prettyCap`: the first character in title case when it is lower-case. */
  function PrettyCap(s: string): string {
    if s != [] && IsLowerCase(s[0]) then TitleCase(s[0]) + s[1..] else s
  }

  lemma PrettyCapSpec(s: string)
    ensures s == [] ==> PrettyCap(s) == []
    ensures s != [] && !IsLowerCase(s[0]) ==> PrettyCap(s) == s
    ensures s != [] && IsLowerCase(s[0]) && s[0] != 'ß' ==>
      |PrettyCap(s)| == |s| && PrettyCap(s)[1..] == s[1..] && !IsLowerCase(PrettyCap(s)[0])
  {
  }

  type Lookup = map<string, (string, string)>

  /** The map `buildAmbienteLookup` holds after its first `n` entries:
      each entry writes its normalised name, so a later entry with the same
      key replaces an earlier one. */
  function LookupOf(all: seq<Ambiente>): Lookup
    decreases |all|
  {
    if all == [] then map[]
    else
      var a := all[|all| - 1];
      LookupOf(all[..|all| - 1])[NormalizeText(a.name) := (a.name, a.icon)]
  }

  /** `buildAmbienteLookup()`: one `base[key] = name to icon` per entry. */
  method BuildAmbienteLookup(all: seq<Ambiente>) returns (base: Lookup)
    ensures base == LookupOf(all)
  {
    base := map[];
    var i := 0;
    while i < |all|
      invariant 0 <= i <= |all|
      invariant base == LookupOf(all[..i])
    {
      var amb := all[i];
      assert all[..i + 1][..i] == all[..i];
      base := base[NormalizeText(amb.name) := (amb.name, amb.icon)];
      i := i + 1;
    }
    assert all[..|all|] == all;
  }

  /** A key is in the lookup exactly when some entry normalises to it. */
  lemma {:induction false} LookupOfDomain(all: seq<Ambiente>, k: string)
    ensures k in LookupOf(all) <==> exists i :: 0 <= i < |all| && NormalizeText(all[i].name) == k
    decreases |all|
  {
    if all != [] {
      var n := |all| - 1;
      LookupOfDomain(all[..n], k);
      LookupOfLast(all, k);
      assert forall i :: 0 <= i < n ==> all[..n][i] == all[i];
    }
  }

  /** Entry `i` is the last entry of `all` whose name normalises to `k`. */
  ghost predicate LastWithKey(all: seq<Ambiente>, k: string, i: int) {
    0 <= i < |all| && NormalizeText(all[i].name) == k
    && forall j :: i < j < |all| ==> NormalizeText(all[j].name) != k
  }

  /** One entry more: the last entry's key now holds that entry; every
      other key keeps what it held. */
  lemma LookupOfLast(all: seq<Ambiente>, k: string)
    requires all != []
    ensures var n := |all| - 1;
      NormalizeText(all[n].name) == k ==> k in LookupOf(all) && LookupOf(all)[k] == (all[n].name, all[n].icon)
    ensures var n := |all| - 1;
      NormalizeText(all[n].name) != k ==>
        (k in LookupOf(all) <==> k in LookupOf(all[..n]))
        && (k in LookupOf(all) ==> LookupOf(all)[k] == LookupOf(all[..n])[k])
  {
  }

  /** A key of the lookup holds the name and icon of the last entry that
      normalises to it. */
  lemma {:induction false} LookupOfSpec(all: seq<Ambiente>, k: string)
    requires k in LookupOf(all)
    ensures exists i :: LastWithKey(all, k, i) && LookupOf(all)[k] == (all[i].name, all[i].icon)
    decreases |all|
  {
    var n := |all| - 1;
    var init := all[..n];
    LookupOfLast(all, k);
    if NormalizeText(all[n].name) == k {
      assert LastWithKey(all, k, n);
    } else {
      LookupOfSpec(init, k);
      var i :| LastWithKey(init, k, i) && LookupOf(init)[k] == (init[i].name, init[i].icon);
      LastWithKeyExtends(all, k, i);
    }
  }

  /** The last entry of a prefix for `k` stays the last one when the entry
      appended after it has another key. */
  lemma LastWithKeyExtends(all: seq<Ambiente>, k: string, i: int)
    requires all != [] && NormalizeText(all[|all| - 1].name) != k
    requires LastWithKey(all[..|all| - 1], k, i)
    ensures LastWithKey(all, k, i) && all[..|all| - 1][i] == all[i]
  {
    var n := |all| - 1;
    forall j | i < j < |all| ensures NormalizeText(all[j].name) != k {
      if j < n { assert all[..n][j] == all[j]; }
    }
  }

  /** The label of the chip for a stored ambiente `a`. */
  function ChipLabel(a: string, lookup: Lookup): string {
    var key := NormalizeText(a);
    if key in lookup then lookup[key].0 else PrettyCap(a)
  }

  /** A stored ambiente whose key matches a catalogue entry is labelled
      with that entry's name; any other is shown through `prettyCap`. */
  lemma ChipLabelSpec(all: seq<Ambiente>, a: string)
    ensures (exists i :: 0 <= i < |all| && NormalizeText(all[i].name) == NormalizeText(a)) ==>
      exists i :: LastWithKey(all, NormalizeText(a), i) && ChipLabel(a, LookupOf(all)) == all[i].name
    ensures (forall i :: 0 <= i < |all| ==> NormalizeText(all[i].name) != NormalizeText(a)) ==>
      ChipLabel(a, LookupOf(all)) == PrettyCap(a)
  {
    LookupOfDomain(all, NormalizeText(a));
    if NormalizeText(a) in LookupOf(all) {
      LookupOfSpec(all, NormalizeText(a));
    }
  }

  // ----- card clicks in the offer and event rows -----

  /** The card at `idx` of a row opens `ids.getOrNull(idx)`. */
  function CardTarget(ids: seq<string>, idx: int): Option<string> {
    if 0 <= idx < |ids| then Some(ids[idx]) else None
  }

  /** The row as drawn: only the calls that delivered a body, in id order. */
  function Shown<T>(ids: seq<string>, fetch: string -> Call<T>): seq<T>
    decreases |ids|
  {
    if ids == [] then []
    else (if Delivered(fetch(ids[0])) then [fetch(ids[0]).body.value] else []) + Shown(ids[1..], fetch)
  }

  /** When a fetch before it fails, a card opens another id than the one it
      was drawn from: offer `b` is drawn first but the click opens `a`. */
  lemma CardTargetShifted<T>(x: T)
    ensures var fetch := (id: string) => if id == "b" then Answered(200, Some(x)) else Answered(404, None);
      && Shown(["a", "b"], fetch) == [x]
      && CardTarget(["a", "b"], 0) == Some("a")
      && !Delivered(fetch("a"))
  {
    var fetch := (id: string) => if id == "b" then Answered(200, Some(x)) else Answered(404, None);
    assert ["a", "b"][1..] == ["b"];
    assert Shown(["b"], fetch) == [x] + Shown([], fetch);
  }

  /** The ids of the calls that delivered, paired with what they delivered. */
  function ShownWithIds<T>(ids: seq<string>, fetch: string -> Call<T>): (r: seq<(string, T)>)
    ensures forall i :: 0 <= i < |r| ==> Delivered(fetch(r[i].0)) && fetch(r[i].0).body.value == r[i].1
    decreases |ids|
  {
    if ids == [] then []
    else
      var c := fetch(ids[0]);
      (if Delivered(c) then [(ids[0], c.body.value)] else []) + ShownWithIds(ids[1..], fetch)
  }

  /** The card target the row evidently means: the id the drawn item was
      fetched with. */
  function CardTargetFixed<T>(ids: seq<string>, fetch: string -> Call<T>, idx: int): Option<string> {
    var shown := ShownWithIds(ids, fetch);
    if 0 <= idx < |shown| then Some(shown[idx].0) else None
  }

  /** The pairs list the drawn row item by item, so each card opens the id
      its item came from. */
  lemma {:induction false} ShownWithIdsAgrees<T>(ids: seq<string>, fetch: string -> Call<T>)
    ensures var shown := ShownWithIds(ids, fetch);
      |shown| == |Shown(ids, fetch)| && forall i :: 0 <= i < |shown| ==> shown[i].1 == Shown(ids, fetch)[i]
    decreases |ids|
  {
    if ids != [] {
      ShownWithIdsAgrees(ids[1..], fetch);
    }
  }

  lemma CardTargetFixedSpec<T>(ids: seq<string>, fetch: string -> Call<T>, idx: int)
    requires 0 <= idx < |Shown(ids, fetch)|
    ensures CardTargetFixed(ids, fetch, idx).Some?
    ensures var id := CardTargetFixed(ids, fetch, idx).value;
      Delivered(fetch(id)) && fetch(id).body.value == Shown(ids, fetch)[idx]
  {
    ShownWithIdsAgrees(ids, fetch);
  }

  // ----- the screen -----

  class AdminDatosEstablecimiento {
    /** `Uri.decode(data).trim()` */
    var raw: string
    var isJson: bool
    var obj: Option<Json>
    /** The `refresh_establecimiento` flag of this entry. */
    var needRefresh: bool
    var showDeleteConfirm: bool

    constructor (decodedData: string)
      ensures raw == Trim(decodedData) && isJson == IsJsonData(Trim(decodedData))
      ensures obj.None? && !needRefresh && !showDeleteConfirm
    {
      raw := Trim(decodedData);
      isJson := IsJsonData(Trim(decodedData));
      obj := None;
      needRefresh := false;
      showDeleteConfirm := false;
    }

    /** `LaunchedEffect(data)`: inline data is parsed (`parseObject` is
        `JSONObject(raw)`, None where it throws); otherwise a non-blank id is
        fetched and a 2xx body becomes its JSON view; a blank id fetches
        nothing. Nothing catches inside the effect: text `JSONObject`
        rejects, or a fetch that throws, crashes the screen (`crashed`). */
    method Open(parseObject: string -> Option<Json>, fetch: string -> Call<Establecimiento>)
      returns (crashed: bool)
      modifies this
      ensures raw == old(raw) && isJson == old(isJson)
      ensures needRefresh == old(needRefresh) && showDeleteConfirm == old(showDeleteConfirm)
      ensures crashed <==> (isJson && parseObject(raw).None?) || (!isJson && !IsBlank(raw) && fetch(raw).Threw?)
      ensures isJson && parseObject(raw).Some? ==> obj == parseObject(raw)
      ensures !isJson && !IsBlank(raw) && Delivered(fetch(raw)) ==> obj == Some(EstToJson(fetch(raw).body.value))
      ensures crashed || (!isJson && (IsBlank(raw) || !Delivered(fetch(raw)))) ==> obj == old(obj)
    {
      crashed := false;
      if isJson {
        var parsed := parseObject(raw);
        if parsed.None? {
          return true;
        }
        obj := parsed;
      } else if !IsBlank(raw) {
        var resp := fetch(raw);
        if resp.Threw? {
          return true;
        }
        if Delivered(resp) {
          obj := Some(EstToJson(resp.body.value));
        }
      }
    }

    /** The id a refresh fetches: the object's `_id.$oid` for inline data,
        the raw data otherwise. */
    function RefreshId(): string
      reads this
    {
      if isJson then (if obj.Some? then OidOrEmpty(obj.value) else "") else raw
    }

    /** `LaunchedEffect(needRefresh, obj)`: with the flag up, a non-blank id
        is fetched again and a 2xx body replaces the object, and the flag is
        put down. A fetch that throws is not caught: the screen crashes
        (`crashed`) before the flag is put down. Without the flag nothing
        happens. */
    method Refresh(fetch: string -> Call<Establecimiento>) returns (crashed: bool)
      modifies this
      ensures raw == old(raw) && isJson == old(isJson) && showDeleteConfirm == old(showDeleteConfirm)
      ensures crashed <==> old(needRefresh) && !IsBlank(old(RefreshId())) && fetch(old(RefreshId())).Threw?
      ensures !old(needRefresh) ==> needRefresh == old(needRefresh) && obj == old(obj)
      ensures old(needRefresh) ==> (needRefresh <==> crashed)
      ensures old(needRefresh) && !IsBlank(old(RefreshId())) && Delivered(fetch(old(RefreshId()))) ==>
        obj == Some(EstToJson(fetch(old(RefreshId())).body.value))
      ensures old(needRefresh) && (IsBlank(old(RefreshId())) || !Delivered(fetch(old(RefreshId())))) ==>
        obj == old(obj)
    {
      crashed := false;
      if needRefresh {
        var idToFetch := RefreshId();
        if !IsBlank(idToFetch) {
          var resp := fetch(idToFetch);
          if resp.Threw? {
            return true;
          }
          if Delivered(resp) {
            obj := Some(EstToJson(resp.body.value));
          }
        }
        needRefresh := false;
      }
    }

    /** The delete dialog's confirm button: the dialog closes; with an
        object on screen and a non-blank `estId`, that id is deleted. */
    method ConfirmDelete() returns (target: Option<string>)
      modifies this
      ensures !showDeleteConfirm
      ensures raw == old(raw) && isJson == old(isJson) && obj == old(obj) && needRefresh == old(needRefresh)
      ensures target.Some? <==> obj.Some? && !IsBlank(View(obj.value).estId)
      ensures target.Some? ==> target.value == View(obj.value).estId
    {
      showDeleteConfirm := false;
      if obj.None? {
        return None;
      }
      var estId := OidOrEmpty(obj.value);
      if IsBlank(estId) {
        return None;
      }
      return Some(estId);
    }
  }

  /** A refresh after a fetched record was shown asks for that record's id
      again. */
  lemma RefreshIdOfFetched(est: Establecimiento)
    ensures OidOrEmpty(EstToJson(est)) == est.Id()
  {
    ViewOfEstToJson(est);
  }

  /** The answer to the delete: a 2xx status pops back, anything else stays. */
  function AfterDelete(call: Call<Json>): (r: Next)
    ensures r.Pop? <==> call.Answered? && IsSuccessful(call.code)
    ensures r.Pop? ==> r.flag.None?
    ensures !r.Pop? ==> r == Stay
  {
    PopOnSuccess(call, None)
  }
}

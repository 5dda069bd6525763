/** The administrator's home screen (admin/InicioAdministradorScreen.kt):
    the profile response decoded into one card per establishment, the
    decoding of each establishment and of its review ids, and what a card
    shows and hands to the detail screen. */
module InicioAdministradorScreen {
  import opened Text
  import opened Json
  import opened Models
  import opened Http
  import opened Urls
  import opened Forms
  import AdminDatosEstablecimientoScreen

  /** One card: the decoded record, its rating and review count, and the
      object it was decoded from. */
  datatype AdminEstItem = AdminEstItem(
    establecimiento: Establecimiento, rating: real, numeroReviews: int, rawJson: Json)

  const DefaultEstablecimientoPath: string := "/_uploads/photos/default_establecimiento.png"

  // ----- extractReviewIds -----

  /** What one review element contributes: `getJSONObject(i)` throws on a
      non-object; an object gives its `_id.$oid` unless that is blank. */
  function ReviewCell(r: Json): Option<seq<string>> {
    if !r.JObj? then None
    else if IsBlank(OidOrEmpty(r)) then Some([])
    else Some([OidOrEmpty(r)])
  }

  /** `extractReviewIds(arr)`: no array gives no ids. */
  function ReviewIds(arr: Option<seq<Json>>): Option<seq<string>> {
    if arr.None? then Some([]) else Collect(arr.value, ReviewCell)
  }

  /** The ids are extracted exactly when every element is an object; each
      id kept is non-blank and is the `_id.$oid` of some element; the ids of
      a concatenation are those of its first part followed by those of its
      second, so the array order is kept. */
  lemma ReviewIdsSpec(items: seq<Json>, more: seq<Json>)
    ensures ReviewIds(Some(items)).Some? <==> forall i :: 0 <= i < |items| ==> items[i].JObj?
    ensures ReviewIds(Some(items)).Some? ==> forall k :: 0 <= k < |ReviewIds(Some(items)).value| ==>
      !IsBlank(ReviewIds(Some(items)).value[k])
      && exists i :: 0 <= i < |items| && OidOrEmpty(items[i]) == ReviewIds(Some(items)).value[k]
    ensures ReviewIds(Some(items + more)) == Concat(ReviewIds(Some(items)), ReviewIds(Some(more)))
  {
    CollectSomeIff(items, ReviewCell);
    CollectAppend(items, more, ReviewCell);
    if Collect(items, ReviewCell).Some? {
      forall k | 0 <= k < |Collect(items, ReviewCell).value|
        ensures !IsBlank(Collect(items, ReviewCell).value[k])
        ensures exists i :: 0 <= i < |items| && OidOrEmpty(items[i]) == Collect(items, ReviewCell).value[k]
      {
        CollectFrom(items, ReviewCell, k);
      }
    }
  }

  /** One element alone: a blank id is skipped, any other is kept. */
  lemma ReviewIdsOne(r: Json)
    requires r.JObj?
    ensures IsBlank(OidOrEmpty(r)) ==> ReviewIds(Some([r])) == Some([])
    ensures !IsBlank(OidOrEmpty(r)) ==> ReviewIds(Some([r])) == Some([OidOrEmpty(r)])
  {
    CollectOne(r, ReviewCell);
  }

  /** The loop of `extractReviewIds`. */
  method ExtractReviewIds(arr: Option<seq<Json>>) returns (r: Option<seq<string>>)
    ensures r == ReviewIds(arr)
  {
    if arr.None? {
      return Some([]);
    }
    var items := arr.value;
    var list: seq<string> := [];
    var i := 0;
    while i < |items|
      invariant 0 <= i <= |items|
      invariant Collect(items[..i], ReviewCell) == Some(list)
    {
      assert items[..i + 1][..i] == items[..i];
      var obj := items[i];
      if !obj.JObj? {
        CollectStuck(items, i + 1, ReviewCell);
        return None;
      }
      var id := OidOrEmpty(obj);
      if !IsBlank(id) {
        list := list + [id];
      } else {
        assert list + [] == list;
      }
      i := i + 1;
    }
    assert items[..|items|] == items;
    r := Some(list);
  }

  // ----- jsonToEstablecimiento -----

  /** `jsonToEstablecimiento(obj)`: `getJSONObject("_id").getString("$oid")`
      throws (None) without an object `_id` holding `$oid`; so does a review
      element that is not an object. */
  function JsonToEstablecimiento(obj: Json): Option<Establecimiento> {
    match OptObject(obj, "_id")
    case None => None
    case Some(idObj) =>
      match GetString(idObj, "$oid")
      case None => None
      case Some(id) =>
        match ReviewIds(OptArray(obj, "reviews"))
        case None => None
        case Some(reviews) =>
          Some(Establecimiento(
            Some(id),
            OptString(obj, "cif", ""),
            OptString(obj, "nombre_establecimiento", ""),
            "",
            ListOrEmpty(obj, "ambiente"),
            ListOrEmpty(obj, "ofertas"),
            ListOrEmpty(obj, "eventos"),
            reviews,
            OptString(obj, "imagen_url", DefaultEstablecimientoPath)))
  }

  /** The record has the id of `_id.$oid`, no administrator id, and the
      default image path when `imagen_url` is absent; decoding fails
      exactly when `_id` is not an object with `$oid` or a review element is
      not an object. */
  lemma JsonToEstablecimientoSpec(obj: Json)
    ensures JsonToEstablecimiento(obj).Some? <==>
      (OptObject(obj, "_id").Some? && Has(OptObject(obj, "_id").value, "$oid")
       && (OptArray(obj, "reviews").Some? ==>
             forall i :: 0 <= i < |OptArray(obj, "reviews").value| ==> OptArray(obj, "reviews").value[i].JObj?))
    ensures JsonToEstablecimiento(obj).Some? ==>
      var e := JsonToEstablecimiento(obj).value;
      && e.Id() == AsText(Opt(OptObject(obj, "_id").value, "$oid").value)
      && e.idAdministrador == ""
      && (!Has(obj, "imagen_url") ==> e.imagenUrl == DefaultEstablecimientoPath)
      && (OptArray(obj, "ofertas").None? ==> e.ofertas == [])
      && (OptArray(obj, "ofertas").Some? ==> |e.ofertas| == |OptArray(obj, "ofertas").value|)
  {
    if OptArray(obj, "reviews").Some? {
      CollectSomeIff(OptArray(obj, "reviews").value, ReviewCell);
    }
  }

  // ----- parseAdminPerfil -----

  /** One element of `establecimientos_detalle`: `getJSONObject(i)` throws
      on a non-object; `rating` and `numero_reviews` are read only when the
      key is present. */
  function ItemOf(estJson: Json): (r: Option<AdminEstItem>)
    ensures r.Some? ==> r.value.rawJson == estJson && estJson.JObj?
  {
    if !estJson.JObj? then None
    else
      match JsonToEstablecimiento(estJson)
      case None => None
      case Some(est) =>
        var rating := if Has(estJson, "rating") then OptDouble(estJson, "rating", 0.0) else 0.0;
        var nReviews := if Has(estJson, "numero_reviews") then OptInt(estJson, "numero_reviews", 0) else 0;
        Some(AdminEstItem(est, rating, nReviews, estJson))
  }

  /** A missing rating is 0.0 and a missing review count is 0. */
  lemma ItemOfDefaults(estJson: Json)
    requires ItemOf(estJson).Some?
    ensures !Has(estJson, "rating") ==> ItemOf(estJson).value.rating == 0.0
    ensures !Has(estJson, "numero_reviews") ==> ItemOf(estJson).value.numeroReviews == 0
    ensures ItemOf(estJson).value.establecimiento == JsonToEstablecimiento(estJson).value
  {
  }

  /** What one element of `establecimientos_detalle` contributes: its card. */
  function ItemCell(estJson: Json): Option<seq<AdminEstItem>> {
    match ItemOf(estJson)
    case None => None
    case Some(item) => Some([item])
  }

  /** `parseAdminPerfil`: `getJSONArray("establecimientos_detalle")` throws
      when the key is absent or not an array. */
  function AdminPerfil(root: Json): Option<seq<AdminEstItem>> {
    match OptArray(root, "establecimientos_detalle")
    case None => None
    case Some(arr) => Collect(arr, ItemCell)
  }

  /** One card per element, in the order of the array; any element that
      does not decode makes the whole parse fail. */
  lemma AdminPerfilSpec(root: Json)
    requires OptArray(root, "establecimientos_detalle").Some?
    ensures var arr := OptArray(root, "establecimientos_detalle").value;
      && (AdminPerfil(root).Some? <==> forall i :: 0 <= i < |arr| ==> ItemOf(arr[i]).Some?)
      && (AdminPerfil(root).Some? ==>
            |AdminPerfil(root).value| == |arr|
            && forall i :: 0 <= i < |arr| ==> AdminPerfil(root).value[i] == ItemOf(arr[i]).value)
  {
    var arr := OptArray(root, "establecimientos_detalle").value;
    CollectSomeIff(arr, ItemCell);
    if AdminPerfil(root).Some? {
      CollectSingles(arr, ItemCell);
    }
  }

  /** The loop of `parseAdminPerfil`. */
  method ParseAdminPerfil(root: Json) returns (r: Option<seq<AdminEstItem>>)
    ensures r == AdminPerfil(root)
  {
    var detalle := OptArray(root, "establecimientos_detalle");
    if detalle.None? {
      return None;
    }
    var arr := detalle.value;
    var out: seq<AdminEstItem> := [];
    var i := 0;
    while i < |arr|
      invariant 0 <= i <= |arr|
      invariant Collect(arr[..i], ItemCell) == Some(out)
    {
      assert arr[..i + 1][..i] == arr[..i];
      var item := ItemOf(arr[i]);
      if item.None? {
        CollectStuck(arr, i + 1, ItemCell);
        return None;
      }
      out := out + [item.value];
      i := i + 1;
    }
    assert arr[..|arr|] == arr;
    r := Some(out);
  }

  // ----- the screen -----

  class InicioAdministrador {
    var establecimientos: seq<AdminEstItem>

    constructor()
      ensures establecimientos == []
    {
      establecimientos := [];
    }

    /** The launch effect: a delivered profile replaces the cards; a failed
        status, an exception or a parse failure is only logged. */
    method Load(call: Call<Json>)
      modifies this
      ensures Delivered(call) && AdminPerfil(call.body.value).Some? ==>
        establecimientos == AdminPerfil(call.body.value).value
      ensures !(Delivered(call) && AdminPerfil(call.body.value).Some?) ==>
        establecimientos == old(establecimientos)
    {
      if Delivered(call) {
        var parsed := ParseAdminPerfil(call.body.value);
        if parsed.Some? {
          establecimientos := parsed.value;
        }
      }
    }
  }

  // ----- the card -----

  /** What a card shows: the image URL (`buildImageUrl`, default `default.png`)
      and the review count label. */
  function CardImage(item: AdminEstItem): string {
    BuildImageUrl(PlainDefaultPng, Some(item.establecimiento.imagenUrl))
  }

  function CardReviews(item: AdminEstItem): string {
    FormatReviews(item.numeroReviews)
  }

  /** The default establishment path is not blank, so `buildImageUrl`
      never falls back to `default.png` for it: it shows the default
      establishment picture. */
  lemma DefaultPathImage()
    ensures BuildImageUrl(PlainDefaultPng, Some(DefaultEstablecimientoPath))
      == BaseUrl + DefaultEstablecimientoPath
  {
    var p := DefaultEstablecimientoPath;
    assert !IsWhitespace(p[0]);
    assert !StartsWith(p, "http") by { assert p[0] != 'h'; }
    assert StartsWith(p, "/");
  }

  /** A card decoded without `imagen_url` shows the default establishment
      picture. */
  lemma CardImageOfMissing(estJson: Json)
    requires ItemOf(estJson).Some? && !Has(estJson, "imagen_url")
    ensures CardImage(ItemOf(estJson).value) == BaseUrl + DefaultEstablecimientoPath
  {
    JsonToEstablecimientoSpec(estJson);
    DefaultPathImage();
  }

  /** The route a card click opens, with `Uri.encode` as a parameter. */
  function CardRoute(item: AdminEstItem, encode: string -> string): string {
    "admin_establecimiento_detalle?data=" + encode(Render(item.rawJson))
  }

  /** A card hands the detail screen the text of its object: once decoded and
      trimmed there it is taken as inline JSON, never as an id. */
  lemma CardDataIsInline(item: AdminEstItem)
    requires item.rawJson.JObj?
    ensures AdminDatosEstablecimientoScreen.IsJsonData(Trim(Render(item.rawJson)))
  {
    var s := Render(item.rawJson);
    assert s[0] == '{' && s[|s| - 1] == '}';
    TrimOfSolid(s);
  }
}

/** The user "Crear reseña" screen (user/CrearReviewScreen.kt): the rating
    and its five stars, the user id read from the stored JWT, the guards of
    the publish button, the review it sends and what the answer does.
    Base64 decoding and the JSON text parser are one parameter, `payload`,
    which turns the second segment of a token into its claims (None when
    either step throws). The current time is a parameter. */
module CrearReviewScreen {
  import opened Text
  import opened Json
  import opened Http
  import opened Screen
  import opened Urls
  import opened Forms

  /** The claims that name the user, in the order they are tried before `_id`. */
  const ClaimKeys: seq<string> := ["sub", "identity", "user_id", "id"]

  /** The first of `keys` present in the claims, as text. */
  function FirstClaim(claims: Json, keys: seq<string>): (r: Option<string>)
    decreases |keys|
  {
    if keys == [] then None
    else if Has(claims, keys[0]) then Some(AsText(Opt(claims, keys[0]).value))
    else FirstClaim(claims, keys[1..])
  }

  /** The first present key wins; no present key gives None. */
  lemma {:induction false} FirstClaimSpec(claims: Json, keys: seq<string>)
    ensures (forall i :: 0 <= i < |keys| ==> !Has(claims, keys[i])) ==> FirstClaim(claims, keys).None?
    ensures forall i :: (0 <= i < |keys| && Has(claims, keys[i])
                         && (forall j :: 0 <= j < i ==> !Has(claims, keys[j]))) ==>
      FirstClaim(claims, keys) == Some(AsText(Opt(claims, keys[i]).value))
    decreases |keys|
  {
    if keys != [] && !Has(claims, keys[0]) {
      FirstClaimSpec(claims, keys[1..]);
      forall i | 0 <= i < |keys| && Has(claims, keys[i]) && (forall j :: 0 <= j < i ==> !Has(claims, keys[j]))
        ensures FirstClaim(claims, keys) == Some(AsText(Opt(claims, keys[i]).value))
      {
        assert keys[1..][i - 1] == keys[i];
        forall j | 0 <= j < i - 1 ensures !Has(claims, keys[1..][j]) {
          assert keys[1..][j] == keys[j + 1];
        }
      }
      forall i | 0 <= i < |keys[1..]| ensures keys[1..][i] == keys[i + 1] {}
    }
  }

  /** The `when` over the claims: `sub`, `identity`, `user_id`, `id` in that
      order as text; then an `_id` object gives its `$oid` (None without
      one) and any other `_id` its `toString()` (a string as it is); no
      such claim gives None. */
  function UserIdClaim(claims: Json): Option<string> {
    var named := FirstClaim(claims, ClaimKeys);
    if named.Some? then named
    else if Has(claims, "_id") then
      var v := Opt(claims, "_id").value;
      if v.JObj? then (if Has(v, "$oid") then Some(AsText(Opt(v, "$oid").value)) else None)
      else Some(AsText(v))
    else None
  }

  /** `decodeJwtForUserId`: a token with no `.` has no payload (None); the
      second segment must decode to a JSON object, whose claims are read. */
  function DecodeJwtForUserId(jwt: string, payload: string -> Option<Json>): (r: Option<string>)
    ensures |Split(jwt, '.')| < 2 ==> r.None?
    ensures |Split(jwt, '.')| >= 2 && (payload(Split(jwt, '.')[1]).None? || !payload(Split(jwt, '.')[1]).value.JObj?)
            ==> r.None?
  {
    var parts := Split(jwt, '.');
    if |parts| < 2 then None
    else
      match payload(parts[1])
      case Some(claims) => if claims.JObj? then UserIdClaim(claims) else None
      case None => None
  }

  /** A token has a second segment exactly when it holds a `.`. */
  lemma {:induction false} SplitHasSecond(s: string, sep: char)
    ensures |Split(s, sep)| >= 2 <==> ContainsChar(s, sep)
    decreases |s|
  {
    if s != [] {
      SplitHasSecond(s[1..], sep);
      if ContainsChar(s, sep) && s[0] != sep {
        var i :| 0 <= i < |s| && s[i] == sep;
        assert s[1..][i - 1] == sep;
      }
      if ContainsChar(s[1..], sep) {
        var i :| 0 <= i < |s[1..]| && s[1..][i] == sep;
        assert s[i + 1] == sep;
      }
    }
  }

  /** The precedence of the claims, for a token with a second segment
      (one that holds a `.`) whose payload decodes to an object. */
  lemma ClaimPrecedence(jwt: string, payload: string -> Option<Json>)
    requires |Split(jwt, '.')| >= 2
    requires payload(Split(jwt, '.')[1]).Some? && payload(Split(jwt, '.')[1]).value.JObj?
    ensures var claims := payload(Split(jwt, '.')[1]).value;
      var r := DecodeJwtForUserId(jwt, payload);
      && (forall i :: (0 <= i < |ClaimKeys| && Has(claims, ClaimKeys[i])
                       && (forall j :: 0 <= j < i ==> !Has(claims, ClaimKeys[j]))) ==>
            r == Some(AsText(Opt(claims, ClaimKeys[i]).value)))
      && ((forall i :: 0 <= i < |ClaimKeys| ==> !Has(claims, ClaimKeys[i])) ==>
            && (!Has(claims, "_id") ==> r.None?)
            && (Has(claims, "_id") && !Opt(claims, "_id").value.JObj? ==> r == Some(AsText(Opt(claims, "_id").value)))
            && (Has(claims, "_id") && Opt(claims, "_id").value.JObj? ==>
                  r == (if Has(Opt(claims, "_id").value, "$oid")
                        then Some(AsText(Opt(Opt(claims, "_id").value, "$oid").value)) else None)))
  {
    FirstClaimSpec(payload(Split(jwt, '.')[1]).value, ClaimKeys);
  }

  /** `obtainUserId`: no stored token, or a blank one, gives None. */
  function ObtainUserId(token: Option<string>, payload: string -> Option<Json>): (r: Option<string>)
    ensures IsNullOrBlank(token) ==> r.None?
    ensures !IsNullOrBlank(token) ==> r == DecodeJwtForUserId(token.value, payload)
  {
    if IsNullOrBlank(token) then None else DecodeJwtForUserId(token.value, payload)
  }

  /** A token without a `.` yields no user id. */
  lemma NoDotNoUser(token: string, payload: string -> Option<Json>)
    requires !ContainsChar(token, '.')
    ensures ObtainUserId(Some(token), payload).None?
  {
    SplitHasSecond(token, '.');
  }

  /** `Review` as the screen sends it: no `_id`, the rating as a float. */
  datatype Review = Review(
    calificacion: real, mensaje: string, idUsuario: string, idEstablecimiento: string, fechaCreacion: string)

  const NoUserOnLoad: string := "No se pudo obtener el id del usuario. Inicia sesión de nuevo."
  const NoUserOnClick: string := "No se pudo identificar al usuario."
  const CreatedFlag: string := "review_creada"

  /** The state of the screen. */
  class CrearReview {
    var rating: int
    var mensaje: string
    var loading: bool
    var error: Option<string>
    var userId: Option<string>

    /** The rating always names one of the five stars. */
    predicate Valid()
      reads this
    {
      1 <= rating <= 5
    }

    constructor (initialRating: int)
      ensures Valid()
      ensures rating == CoerceIn(initialRating, 1, 5)
      ensures mensaje == "" && !loading && error.None? && userId.None?
    {
      rating := CoerceIn(initialRating, 1, 5);
      mensaje := "";
      loading := false;
      error := None;
      userId := None;
    }

    /** The launch effect: the user id is read from the stored token; none
        (or a blank one) sets the error. */
    method LoadUserId(token: Option<string>, payload: string -> Option<Json>)
      modifies this
      ensures userId == ObtainUserId(token, payload)
      ensures IsNullOrBlank(userId) ==> error == Some(NoUserOnLoad)
      ensures !IsNullOrBlank(userId) ==> error == old(error)
      ensures rating == old(rating) && mensaje == old(mensaje) && loading == old(loading)
    {
      userId := ObtainUserId(token, payload);
      if IsNullOrBlank(userId) {
        error := Some(NoUserOnLoad);
      }
    }

    /** Clicking star `i` (the row holds stars 1 to 5). */
    method ClickStar(i: int)
      requires 1 <= i <= 5
      modifies this
      ensures Valid() && rating == i
      ensures FilledCount(StarRow(rating)) == i
      ensures mensaje == old(mensaje) && loading == old(loading) && error == old(error) && userId == old(userId)
    {
      rating := i;
      StarRowCount(i);
    }

    /** `enabled` of the publish button. */
    predicate Enabled()
      reads this
    {
      !loading && !IsBlank(mensaje) && !IsNullOrBlank(userId)
    }

    /** The publish click: ignored while loading; without a user id it sets
        the error and sends nothing; otherwise it starts loading, clears the
        error and sends the review with the current rating and message. */
    method Publish(establecimientoId: string, nowIso: string) returns (r: Submit<Review>)
      requires Valid()
      modifies this
      ensures Valid() && rating == old(rating) && mensaje == old(mensaje) && userId == old(userId)
      ensures old(loading) ==> r == Ignored && error == old(error) && loading
      ensures !old(loading) && IsNullOrBlank(userId) ==>
        r == Rejected(NoUserOnClick) && error == Some(NoUserOnClick) && !loading
      ensures r.Send? <==> !old(loading) && !IsNullOrBlank(userId)
      ensures old(Enabled()) ==> r.Send?
      ensures r.Send? ==> (loading && error.None?
        && r.body == Review(rating as real, mensaje, userId.value, establecimientoId, nowIso)
        && 1.0 <= r.body.calificacion <= 5.0)
    {
      if loading {
        return Ignored;
      }
      if IsNullOrBlank(userId) {
        error := Some(NoUserOnClick);
        return Rejected(NoUserOnClick);
      }
      loading := true;
      error := None;
      r := Send(Review(rating as real, mensaje, userId.value, establecimientoId, nowIso));
    }

    /** The answer: a 2xx status marks `review_creada` and pops; another
        status sets "Error <code>"; an exception sets its message. `loading`
        is cleared in every case. */
    method Answer(call: Call<Json>) returns (next: Next)
      modifies this
      ensures !loading
      ensures next.Pop? <==> call.Answered? && IsSuccessful(call.code)
      ensures next.Pop? ==> next.flag == Some(CreatedFlag) && error == old(error)
      ensures call.Answered? && !IsSuccessful(call.code) ==>
        next == Stay && error == Some("Error " + IntToString(call.code))
      ensures call.Threw? ==> next == Stay && error == Some(call.message)
      ensures rating == old(rating) && mensaje == old(mensaje) && userId == old(userId)
    {
      if call.Threw? {
        error := Some(call.message);
        next := Stay;
      } else if IsSuccessful(call.code) {
        next := Pop(Some(CreatedFlag));
      } else {
        error := Some("Error " + IntToString(call.code));
        next := Stay;
      }
      loading := false;
    }
  }
}

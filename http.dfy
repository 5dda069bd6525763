/** What a screen sees of one Retrofit/OkHttp call: either an answer with a
    status code and a body (absent when Retrofit gives `body() == null`),
    or an exception. The transport itself is not modelled; a response body
    is given as the org.json tree it parses to. */
module Http {
  import opened Text
  import opened Json

  datatype Call<T> = Answered(code: int, body: Option<T>) | Threw(message: string)

  /** Retrofit `Response.isSuccessful`: a status in 200..299. */
  predicate IsSuccessful(code: int) {
    200 <= code <= 299
  }

  /** `resp.isSuccessful && resp.body() != null`. */
  predicate Delivered<T>(c: Call<T>) {
    c.Answered? && IsSuccessful(c.code) && c.body.Some?
  }

  /** The list a `forEach { id -> val r = fetch(id); if (r.isSuccessful) r.body()?.let { add(it) } }`
      loop builds; an exception from any call abandons the whole list (None). */
  function Fetched<T>(ids: seq<string>, fetch: string -> Call<T>): (r: Option<seq<T>>)
    decreases |ids|
  {
    if ids == [] then Some([])
    else
      var c := fetch(ids[0]);
      if c.Threw? then None
      else
        var rest := Fetched(ids[1..], fetch);
        if rest.None? then None
        else if Delivered(c) then Some([c.body.value] + rest.value)
        else rest
  }

  function Prepend<T>(k: seq<T>, r: Option<seq<T>>): Option<seq<T>> {
    if r.None? then None else Some(k + r.value)
  }

  lemma PrependEmpty<T>(r: Option<seq<T>>)
    ensures Prepend([], r) == r
  {
    if r.Some? { assert [] + r.value == r.value; }
  }

  lemma PrependOne<T>(k: seq<T>, x: T, r: Option<seq<T>>)
    ensures Prepend(k, if r.None? then None else Some([x] + r.value)) == Prepend(k + [x], r)
  {
    if r.Some? { assert k + ([x] + r.value) == (k + [x]) + r.value; }
  }

  /** The fetch loop of a detail screen, one call per id in order. */
  method CollectFetched<T>(ids: seq<string>, fetch: string -> Call<T>) returns (r: Option<seq<T>>)
    ensures r == Fetched(ids, fetch)
  {
    var kept: seq<T> := [];
    var i := 0;
    PrependEmpty(Fetched(ids, fetch));
    while i < |ids|
      invariant 0 <= i <= |ids|
      invariant Fetched(ids, fetch) == Prepend(kept, Fetched(ids[i..], fetch))
    {
      assert ids[i..][0] == ids[i] && ids[i..][1..] == ids[i + 1..];
      var c := fetch(ids[i]);
      if c.Threw? {
        return None;
      }
      if Delivered(c) {
        PrependOne(kept, c.body.value, Fetched(ids[i + 1..], fetch));
        kept := kept + [c.body.value];
      }
      i := i + 1;
    }
    assert ids[i..] == [];
    assert kept + [] == kept;
    return Some(kept);
  }

  /** The fetched list is abandoned exactly when some call threw; otherwise
      it holds, in id order, the bodies of the calls that were kept, and
      all of them when every call succeeded with a body. */
  lemma {:induction false} FetchedSpec<T>(ids: seq<string>, fetch: string -> Call<T>)
    ensures Fetched(ids, fetch).None? <==> exists i :: 0 <= i < |ids| && fetch(ids[i]).Threw?
    ensures Fetched(ids, fetch).Some? ==> |Fetched(ids, fetch).value| <= |ids|
    ensures Fetched(ids, fetch).Some? ==>
      forall x :: x in Fetched(ids, fetch).value ==>
        exists i :: 0 <= i < |ids| && Delivered(fetch(ids[i])) && fetch(ids[i]).body.value == x
    ensures (forall i :: 0 <= i < |ids| ==> Delivered(fetch(ids[i]))) ==>
      Fetched(ids, fetch).Some? && |Fetched(ids, fetch).value| == |ids|
      && forall i :: 0 <= i < |ids| ==> Fetched(ids, fetch).value[i] == fetch(ids[i]).body.value
    decreases |ids|
  {
    if ids != [] {
      var t := ids[1..];
      FetchedSpec(t, fetch);
      assert forall i :: 1 <= i < |ids| ==> ids[i] == t[i - 1];
      if Fetched(ids, fetch).Some? {
        var r := Fetched(ids, fetch).value;
        forall x | x in r
          ensures exists i :: 0 <= i < |ids| && Delivered(fetch(ids[i])) && fetch(ids[i]).body.value == x
        {
          if Delivered(fetch(ids[0])) && x == fetch(ids[0]).body.value {
            assert Delivered(fetch(ids[0]));
          } else {
            assert x in Fetched(t, fetch).value;
            var j :| 0 <= j < |t| && Delivered(fetch(t[j])) && fetch(t[j]).body.value == x;
            assert ids[j + 1] == t[j];
          }
        }
      }
      if exists i :: 0 <= i < |ids| && fetch(ids[i]).Threw? {
        var i :| 0 <= i < |ids| && fetch(ids[i]).Threw?;
        if i > 0 {
          assert fetch(t[i - 1]).Threw?;
        }
      }
    }
  }

  /** The tail the three create screens share: a 2xx answer with a body
      whose `optString(idKey, "")` is not blank navigates to
      `routePrefix + id`; anything else stays on the screen. */
  function CreatedRoute(call: Call<Json>, idKey: string, routePrefix: string): (r: Option<string>)
    ensures r.Some? <==> Delivered(call) && !IsBlank(OptString(call.body.value, idKey, ""))
    ensures r.Some? ==> r.value == routePrefix + OptString(call.body.value, idKey, "")
  {
    if !Delivered(call) then None
    else
      var id := OptString(call.body.value, idKey, "");
      if IsBlank(id) then None else Some(routePrefix + id)
  }
}

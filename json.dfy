/** The org.json tree the Android screens decode responses with, and the
    `opt*`/`get*` accessors they use, with the coercions of the org.json
    bundled with Android (`getString`/`optString` turn any present value,
    JSON null included, into text). An object is an ordered list of
    members (insertion order, as the library keeps it); a number keeps the
    text it was written with, which is what `optString` returns for it. The
    text parser itself is not modelled: decoders start from the tree. */
module Json {
  import opened Text

  datatype Option<T> = None | Some(value: T)

  datatype Json =
    | JNull
    | JBool(b: bool)
    | JNum(n: real, text: string)
    | JStr(s: string)
    | JArr(items: seq<Json>)
    | JObj(members: seq<(string, Json)>)

  type Members = seq<(string, Json)>

  predicate HasKey(m: Members, key: string) {
    exists i :: 0 <= i < |m| && m[i].0 == key
  }

  /** The value stored under `key`: the first member with that name. */
  function Get(m: Members, key: string): (r: Option<Json>)
    ensures r.None? <==> !HasKey(m, key)
    ensures r.Some? ==> (key, r.value) in m
  {
    if m == [] then None
    else if m[0].0 == key then Some(m[0].1)
    else
      var r := Get(m[1..], key);
      assert forall i :: 1 <= i < |m| ==> m[i] == m[1..][i - 1];
      r
  }

  /** The first member named `key` sits at index `i`. */
  lemma {:induction false} GetAt(m: Members, i: nat, key: string)
    requires i < |m| && m[i].0 == key
    requires forall j :: 0 <= j < i ==> m[j].0 != key
    ensures Get(m, key) == Some(m[i].1)
    decreases i
  {
    if i > 0 {
      GetAt(m[1..], i - 1, key);
    }
  }

  /** `JSONObject.put`: replace the value of an existing key in place, or
      append a new member. */
  function Put(m: Members, key: string, v: Json): (r: Members)
    ensures HasKey(m, key) ==> |r| == |m|
    ensures !HasKey(m, key) ==> r == m + [(key, v)]
  {
    if m == [] then [(key, v)]
    else if m[0].0 == key then [(key, v)] + m[1..]
    else
      assert forall i :: 1 <= i < |m| ==> m[i] == m[1..][i - 1];
      [m[0]] + Put(m[1..], key, v)
  }

  /** After `put(key, v)`, `key` reads back as `v` and every other key is unchanged. */
  lemma {:induction false} GetPut(m: Members, key: string, v: Json, other: string)
    ensures Get(Put(m, key, v), key) == Some(v)
    ensures other != key ==> Get(Put(m, key, v), other) == Get(m, other)
    decreases |m|
  {
    if m != [] && m[0].0 != key {
      GetPut(m[1..], key, v, other);
      assert Put(m, key, v)[1..] == Put(m[1..], key, v);
    }
  }

  function Has(j: Json, key: string): bool {
    j.JObj? && HasKey(j.members, key)
  }

  /** `opt(key)`: the value, absent when the tree is not an object. */
  function Opt(j: Json, key: string): Option<Json> {
    if j.JObj? then Get(j.members, key) else None
  }

  function Escape(s: string): string
    decreases |s|
  {
    if s == [] then ""
    else (if s[0] == '"' || s[0] == '\\' then ['\\', s[0]] else [s[0]]) + Escape(s[1..])
  }

  function Quote(s: string): string {
    "\"" + Escape(s) + "\""
  }

  /** `toString()` of a value: compact JSON text, escaping only `"` and
      `\\`. Android's printer also writes `/` as `\/` and escapes control
      characters; those escapes are not modelled. */
  function Render(j: Json): string
    decreases j, 1
  {
    match j
    case JNull => "null"
    case JBool(b) => if b then "true" else "false"
    case JNum(_, text) => text
    case JStr(s) => Quote(s)
    case JArr(items) => "[" + RenderItems(j, items) + "]"
    case JObj(members) => "{" + RenderMembers(j, members) + "}"
  }

  function RenderItems(parent: Json, items: seq<Json>): string
    requires forall i :: 0 <= i < |items| ==> items[i] < parent
    decreases parent, 0, |items|
  {
    if items == [] then ""
    else Render(items[0]) + (if |items| == 1 then "" else "," + RenderItems(parent, items[1..]))
  }

  function RenderMembers(parent: Json, members: Members): string
    requires forall i :: 0 <= i < |members| ==> members[i].1 < parent
    decreases parent, 0, |members|
  {
    if members == [] then ""
    else
      Quote(members[0].0) + ":" + Render(members[0].1)
      + (if |members| == 1 then "" else "," + RenderMembers(parent, members[1..]))
  }

  /** What `getString`/`optString` answer for a present value: a string as
      it is, anything else (JSON null included) as its JSON text. */
  function AsText(v: Json): (r: string)
    ensures v.JStr? ==> r == v.s
    ensures v.JNum? ==> r == v.text
    ensures v.JNull? ==> r == "null"
  {
    if v.JStr? then v.s else Render(v)
  }

  /** `optString(key, fallback)`: the fallback only when the key is absent. */
  function OptString(j: Json, key: string, fallback: string): (r: string)
    ensures Opt(j, key).None? ==> r == fallback
    ensures Opt(j, key).Some? ==> r == AsText(Opt(j, key).value)
  {
    match Opt(j, key)
    case None => fallback
    case Some(v) => AsText(v)
  }

  /** Kotlin `Double.toInt()`: truncation toward zero. */
  function Truncate(x: real): (r: int)
    ensures x >= 0.0 ==> r as real <= x < r as real + 1.0
    ensures x < 0.0 ==> r as real - 1.0 < x <= r as real
  {
    if x >= 0.0 then x.Floor else -((-x).Floor)
  }

  /** `optInt(key, fallback)` for numeric values; other values give the fallback. */
  function OptInt(j: Json, key: string, fallback: int): (r: int)
    ensures !Has(j, key) ==> r == fallback
    ensures Opt(j, key).Some? && Opt(j, key).value.JNum? ==> r == Truncate(Opt(j, key).value.n)
  {
    match Opt(j, key)
    case Some(JNum(n, _)) => Truncate(n)
    case _ => fallback
  }

  /** `optDouble(key, fallback)` for numeric values; other values give the fallback. */
  function OptDouble(j: Json, key: string, fallback: real): (r: real)
    ensures !Has(j, key) ==> r == fallback
    ensures Opt(j, key).Some? && Opt(j, key).value.JNum? ==> r == Opt(j, key).value.n
  {
    match Opt(j, key)
    case Some(JNum(n, _)) => n
    case _ => fallback
  }

  /** `optBoolean(key, fallback)`: a boolean, or the text "true"/"false" in any case. */
  function OptBoolean(j: Json, key: string, fallback: bool): (r: bool)
    ensures !Has(j, key) ==> r == fallback
    ensures Opt(j, key) == Some(JBool(true)) ==> r
    ensures Opt(j, key) == Some(JBool(false)) ==> !r
  {
    match Opt(j, key)
    case Some(JBool(b)) => b
    case Some(JStr(s)) =>
      if Lowercase(s) == "true" then true
      else if Lowercase(s) == "false" then false
      else fallback
    case _ => fallback
  }

  /** `optJSONObject(key)` / `optJSONArray(key)`: the value when it has the right kind. */
  function OptObject(j: Json, key: string): (r: Option<Json>)
    ensures r.Some? ==> r.value.JObj? && Opt(j, key) == r
    ensures r.None? ==> Opt(j, key).None? || !Opt(j, key).value.JObj?
  {
    match Opt(j, key)
    case Some(JObj(m)) => Some(JObj(m))
    case _ => None
  }

  function OptArray(j: Json, key: string): (r: Option<seq<Json>>)
    ensures r.Some? ==> Opt(j, key) == Some(JArr(r.value))
    ensures r.None? ==> Opt(j, key).None? || !Opt(j, key).value.JArr?
  {
    match Opt(j, key)
    case Some(JArr(items)) => Some(items)
    case _ => None
  }

  /** `getString(key)`: the text of a present value; an absent key makes the
      library throw (None). */
  function GetString(j: Json, key: string): (r: Option<string>)
    ensures r.Some? <==> Opt(j, key).Some?
    ensures r.Some? ==> r.value == AsText(Opt(j, key).value)
  {
    match Opt(j, key)
    case Some(v) => Some(AsText(v))
    case None => None
  }

  /** `_id.$oid` read with `optJSONObject("_id")?.optString("$oid") ?: ""`. */
  function OidOrEmpty(j: Json): (r: string)
    ensures OptObject(j, "_id").None? ==> r == ""
    ensures OptObject(j, "_id").Some? ==> r == OptString(OptObject(j, "_id").value, "$oid", "")
  {
    match OptObject(j, "_id")
    case None => ""
    case Some(o) => OptString(o, "$oid", "")
  }

  /** `getString(i)` for each index of an array, which turns any element
      into its text: the list helpers `toStringList`/`toListString`. */
  function ToStringList(items: seq<Json>): (r: seq<string>)
    ensures |r| == |items| && forall i :: 0 <= i < |items| ==> r[i] == AsText(items[i])
  {
    seq(|items|, i requires 0 <= i < |items| => AsText(items[i]))
  }

  /** `optJSONArray(key)?.toStringList() ?: emptyList()`: no array, no texts. */
  function ListOrEmpty(j: Json, key: string): (r: seq<string>)
    ensures OptArray(j, key).None? ==> r == []
    ensures OptArray(j, key).Some? ==> r == ToStringList(OptArray(j, key).value)
  {
    match OptArray(j, key)
    case Some(items) => ToStringList(items)
    case None => []
  }

  // ----- decoding an array element by element -----

  /** A loop over an array in which each element either makes the decoding
      throw (None) or contributes a list of results, appended in order. */
  function Collect<A, B>(xs: seq<A>, f: A -> Option<seq<B>>): Option<seq<B>>
    decreases |xs|
  {
    if xs == [] then Some([])
    else
      var init := Collect(xs[..|xs| - 1], f);
      var last := f(xs[|xs| - 1]);
      if init.None? || last.None? then None else Some(init.value + last.value)
  }

  /** Both parts succeed, and their results are concatenated. */
  function Concat<T>(a: Option<seq<T>>, b: Option<seq<T>>): Option<seq<T>> {
    if a.Some? && b.Some? then Some(a.value + b.value) else None
  }

  /** Decoding a concatenation decodes the first part, then the second. */
  lemma {:induction false} CollectAppend<A, B>(xs: seq<A>, ys: seq<A>, f: A -> Option<seq<B>>)
    ensures Collect(xs + ys, f) == Concat(Collect(xs, f), Collect(ys, f))
    decreases |ys|
  {
    if ys == [] {
      assert xs + ys == xs;
      if Collect(xs, f).Some? { assert Collect(xs, f).value + [] == Collect(xs, f).value; }
    } else {
      var n := |ys| - 1;
      CollectAppend(xs, ys[..n], f);
      assert (xs + ys)[..|xs + ys| - 1] == xs + ys[..n];
      assert (xs + ys)[|xs + ys| - 1] == ys[n];
      var a, b, c := Collect(xs, f), Collect(ys[..n], f), f(ys[n]);
      if a.Some? && b.Some? && c.Some? {
        assert a.value + (b.value + c.value) == (a.value + b.value) + c.value;
      }
    }
  }

  /** A single element contributes exactly its own list. */
  lemma CollectOne<A, B>(x: A, f: A -> Option<seq<B>>)
    ensures Collect([x], f) == f(x)
  {
    assert [x][..0] == [];
    if f(x).Some? { assert [] + f(x).value == f(x).value; }
  }

  /** The decoding succeeds exactly when every element does. */
  lemma {:induction false} CollectSomeIff<A, B>(xs: seq<A>, f: A -> Option<seq<B>>)
    ensures Collect(xs, f).Some? <==> forall i :: 0 <= i < |xs| ==> f(xs[i]).Some?
    decreases |xs|
  {
    if xs != [] {
      var n := |xs| - 1;
      CollectSomeIff(xs[..n], f);
      assert forall i :: 0 <= i < n ==> xs[..n][i] == xs[i];
    }
  }

  /** Once a prefix fails, the whole decoding does. */
  lemma CollectStuck<A, B>(xs: seq<A>, k: nat, f: A -> Option<seq<B>>)
    requires k <= |xs| && Collect(xs[..k], f).None?
    ensures Collect(xs, f).None?
  {
    CollectAppend(xs[..k], xs[k..], f);
    assert xs[..k] + xs[k..] == xs;
  }

  /** When every element contributes one result, there is one result per
      element, in order. */
  lemma {:induction false} CollectSingles<A, B>(xs: seq<A>, f: A -> Option<seq<B>>)
    requires forall i :: 0 <= i < |xs| ==> f(xs[i]).Some? ==> |f(xs[i]).value| == 1
    requires Collect(xs, f).Some?
    ensures |Collect(xs, f).value| == |xs|
    ensures forall i :: 0 <= i < |xs| ==>
      f(xs[i]).Some? && Collect(xs, f).value[i] == f(xs[i]).value[0]
    decreases |xs|
  {
    if xs != [] {
      var n := |xs| - 1;
      assert forall i :: 0 <= i < n ==> xs[..n][i] == xs[i];
      CollectSingles(xs[..n], f);
    }
  }

  /** Every result is contributed by some element. */
  lemma {:induction false} CollectFrom<A, B>(xs: seq<A>, f: A -> Option<seq<B>>, k: nat)
    requires Collect(xs, f).Some? && k < |Collect(xs, f).value|
    ensures exists i :: 0 <= i < |xs| && f(xs[i]).Some? && Collect(xs, f).value[k] in f(xs[i]).value
    decreases |xs|
  {
    var n := |xs| - 1;
    var init := Collect(xs[..n], f).value;
    if k < |init| {
      CollectFrom(xs[..n], f, k);
      var i :| 0 <= i < n && f(xs[..n][i]).Some? && init[k] in f(xs[..n][i]).value;
      assert xs[..n][i] == xs[i];
    } else {
      assert Collect(xs, f).value[k] == f(xs[n]).value[k - |init|];
    }
  }
}

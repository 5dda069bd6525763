/** Date handling shared by the event screens: the Kotlin `Any?` a date
    arrives as, and the "try each `SimpleDateFormat` pattern in turn" loop.
    Parsing and formatting with a pattern is a parameter: `attempt(p, s)`
    is what the screen gets from pattern `p` on text `s` (its formatted or
    numeric result), or None when parsing throws. */
module Dates {
  import opened Text
  import opened Json

  /** A value typed `Any?`: null, a String, a Number (with its `toString`),
      a `Map` (keys are strings here), or any other object, known by its
      `toString`. */
  datatype Value =
    | VNull
    | VStr(s: string)
    | VNum(x: real, text: string)
    | VMap(entries: map<string, Value>)
    | VObj(text: string)

  /** A Gson-decoded `FechaWrapper(date)`: a data class, so `toString` is
      `FechaWrapper(date=...)`. */
  function FechaValue(date: string): (v: Value)
    ensures v.VObj?
  {
    VObj("FechaWrapper(date=" + date + ")")
  }

  /** `m[k]` on a Kotlin map: null when the key is absent. */
  function MapGet(m: map<string, Value>, k: string): Value {
    if k in m then m[k] else VNull
  }

  /** `(value["$date"] ?: value["date"]) as? String` */
  function DateEntry(m: map<string, Value>): (r: Option<string>)
    ensures MapGet(m, "$date").VStr? ==> r == Some(MapGet(m, "$date").s)
    ensures MapGet(m, "$date").VNull? && MapGet(m, "date").VStr? ==> r == Some(MapGet(m, "date").s)
    ensures r.Some? ==> MapGet(m, "$date") == VStr(r.value)
                        || (MapGet(m, "$date").VNull? && MapGet(m, "date") == VStr(r.value))
  {
    var v := if !MapGet(m, "$date").VNull? then MapGet(m, "$date") else MapGet(m, "date");
    if v.VStr? then Some(v.s) else None
  }

  /** The first pattern, in list order, that `attempt` accepts. */
  function FirstParse<T>(patterns: seq<string>, s: string, attempt: (string, string) -> Option<T>): Option<T>
    decreases |patterns|
  {
    if patterns == [] then None
    else if attempt(patterns[0], s).Some? then attempt(patterns[0], s)
    else FirstParse(patterns[1..], s, attempt)
  }

  /** The loop `for (p in patterns) { try { ...; return/break } catch { } }`. */
  method TryPatterns<T>(patterns: seq<string>, s: string, attempt: (string, string) -> Option<T>)
    returns (out: Option<T>)
    ensures out == FirstParse(patterns, s, attempt)
  {
    var i := 0;
    while i < |patterns|
      invariant 0 <= i <= |patterns|
      invariant FirstParse(patterns, s, attempt) == FirstParse(patterns[i..], s, attempt)
    {
      assert patterns[i..][0] == patterns[i] && patterns[i..][1..] == patterns[i + 1..];
      var r := attempt(patterns[i], s);
      if r.Some? {
        return r;
      }
      i := i + 1;
    }
    return None;
  }

  /** The loop succeeds exactly when some pattern parses, and then it
      answers with the earliest such pattern. */
  lemma {:induction false} FirstParseSpec<T>(patterns: seq<string>, s: string, attempt: (string, string) -> Option<T>)
    ensures FirstParse(patterns, s, attempt).Some? <==>
      exists i :: 0 <= i < |patterns| && attempt(patterns[i], s).Some?
    ensures FirstParse(patterns, s, attempt).Some? ==>
      exists i :: 0 <= i < |patterns| && FirstParse(patterns, s, attempt) == attempt(patterns[i], s)
        && forall j :: 0 <= j < i ==> attempt(patterns[j], s).None?
    decreases |patterns|
  {
    if patterns != [] {
      var t := patterns[1..];
      FirstParseSpec(t, s, attempt);
      assert forall i :: 1 <= i < |patterns| ==> patterns[i] == t[i - 1];
      if attempt(patterns[0], s).None? && FirstParse(t, s, attempt).Some? {
        var i :| 0 <= i < |t| && FirstParse(t, s, attempt) == attempt(t[i], s)
          && forall j :: 0 <= j < i ==> attempt(t[j], s).None?;
        assert FirstParse(patterns, s, attempt) == attempt(patterns[i + 1], s);
        forall j | 0 <= j < i + 1 ensures attempt(patterns[j], s).None? {
          if j > 0 { assert patterns[j] == t[j - 1]; }
        }
      }
    }
  }

  /** The ISO patterns the admin event screens try, in order. */
  const AdminPatterns: seq<string> := [
    "yyyy-MM-dd'T'HH:mm:ssX",
    "yyyy-MM-dd'T'HH:mm:ss.SSSX",
    "yyyy-MM-dd'T'HH:mm:ss'Z'",
    "yyyy-MM-dd HH:mm:ss"
  ]
}

/** Ambiente selection as the establishment and profile screens keep it: a
    `Set<Ambiente>` built with `+`/`-` (insertion-ordered, no duplicates),
    modelled as a sequence without duplicates; and the two text
    normalisations the screens compare ambiente names with. */
module Ambientes {
  import opened Text
  import opened Models

  /** `normalizeText` (admin screens): `lowercase()`, then `trim()`, then
      NFD and removal of the combining marks. */
  function NormalizeText(s: string): string {
    StripMarks(Trim(Lowercase(s)))
  }

  /** `normalizeKey` (profile screen): NFD, removal of the marks, then
      `lowercase(Locale.ROOT)`; no trimming. */
  function NormalizeKey(s: string): string {
    Lowercase(StripMarks(s))
  }

  /** One character through lowercase-then-strip. */
  function NormChar(c: char): char {
    StripMarkChar(LowerChar(c))
  }

  /** A normalised character is left alone by both steps, and the steps
      neither create nor remove whitespace. */
  lemma NormCharFixed(c: char)
    ensures LowerChar(NormChar(c)) == NormChar(c)
    ensures StripMarkChar(NormChar(c)) == NormChar(c)
    ensures IsWhitespace(LowerChar(c)) <==> IsWhitespace(c)
    ensures IsWhitespace(NormChar(c)) <==> IsWhitespace(c)
    ensures LowerChar(StripMarkChar(c)) == NormChar(c)
  {
  }

  /** `trim` commutes with `lowercase`, which keeps whitespace where it is. */
  lemma TrimLowercase(s: string)
    ensures Trim(Lowercase(s)) == Lowercase(Trim(s))
  {
    forall c ensures IsWhitespace(LowerChar(c)) <==> IsWhitespace(c) {
      NormCharFixed(c);
    }
    TrimMapChars(s, LowerChar);
  }

  /** The two normalisations agree once the text is trimmed. */
  lemma NormalizeTextIsKeyOfTrim(s: string)
    ensures NormalizeText(s) == NormalizeKey(Trim(s))
  {
    TrimLowercase(s);
    var t := Trim(s);
    forall k | 0 <= k < |t| ensures NormalizeText(s)[k] == NormalizeKey(t)[k] {
      NormCharFixed(t[k]);
    }
  }

  /** `r` is the cut `s[i..i + |r|]` of `s`, normalised character by character. */
  predicate NormalizedCut(s: string, i: nat, r: string) {
    SolidCut(s, i, |r|) && forall k :: 0 <= k < |r| ==> r[k] == NormChar(s[i + k])
  }

  /** A normalised cut has no whitespace at either end... */
  lemma NormalizedCutEnds(s: string, i: nat, r: string)
    requires NormalizedCut(s, i, r)
    ensures r == [] || (!IsWhitespace(r[0]) && !IsWhitespace(r[|r| - 1]))
  {
    if r != [] {
      NormCharFixed(s[i]);
      NormCharFixed(s[i + |r| - 1]);
    }
  }

  /** ...and no character that lowercasing or accent stripping would change. */
  lemma NormalizedCutFixed(s: string, i: nat, r: string)
    requires NormalizedCut(s, i, r)
    ensures forall k :: 0 <= k < |r| ==> LowerChar(r[k]) == r[k] && StripMarkChar(r[k]) == r[k]
  {
    forall k | 0 <= k < |r| ensures LowerChar(r[k]) == r[k] && StripMarkChar(r[k]) == r[k] {
      NormCharFixed(s[i + k]);
    }
  }

  lemma NormalizeTextCut(s: string) returns (i: nat)
    ensures NormalizedCut(s, i, NormalizeText(s))
  {
    i := TrimCut(s);
    var t := Trim(s);
    assert t == s[i..i + |t|];
    TrimLowercase(s);
    var r := NormalizeText(s);
    assert r == StripMarks(Lowercase(t));
    forall k | 0 <= k < |r| ensures r[k] == NormChar(s[i + k]) {
      assert t[k] == s[i + k];
    }
  }

  /** What `normalizeText` promises: the result is the trimmed text, each
      character lower-cased and stripped of its accent; no whitespace is
      left at either end and no character is still upper-case or accented. */
  lemma NormalizeTextSpec(s: string)
    ensures var r := NormalizeText(s);
      && (exists i :: NormalizedCut(s, i, r))
      && (r == [] || (!IsWhitespace(r[0]) && !IsWhitespace(r[|r| - 1])))
      && (forall k :: 0 <= k < |r| ==> LowerChar(r[k]) == r[k] && StripMarkChar(r[k]) == r[k])
  {
    var i := NormalizeTextCut(s);
    NormalizedCutEnds(s, i, NormalizeText(s));
    NormalizedCutFixed(s, i, NormalizeText(s));
  }

  /** Normalising twice is normalising once. */
  lemma NormalizeTextIdempotent(s: string)
    ensures NormalizeText(NormalizeText(s)) == NormalizeText(s)
  {
    var r := NormalizeText(s);
    var i := NormalizeTextCut(s);
    NormalizedCutEnds(s, i, r);
    NormalizedCutFixed(s, i, r);
    var l := Lowercase(r);
    assert l == r;
    var t := Trim(l);
    if r != [] {
      TrimOfSolid(r);
    } else {
      TrimUnique(r, 0, 0);
    }
    assert t == r;
    var m := StripMarks(t);
    assert m == r;
  }

  // ----- selection -----

  predicate NoDup<T(==)>(s: seq<T>) {
    forall i, j :: 0 <= i < j < |s| ==> s[i] != s[j]
  }

  /** The catalogue lists each ambiente once. */
  lemma CatalogueNoDup()
    ensures NoDup(Catalogue)
  {
  }

  /** `set - x` on an insertion-ordered set. */
  function Remove<T(==,!new)>(s: seq<T>, x: T): (r: seq<T>)
    ensures forall y :: y in r <==> y in s && y != x
    ensures |r| <= |s|
    decreases |s|
  {
    if s == [] then [] else (if s[0] == x then [] else [s[0]]) + Remove(s[1..], x)
  }

  lemma {:induction false} RemoveAbsent<T(!new)>(s: seq<T>, x: T)
    requires x !in s
    ensures Remove(s, x) == s
    decreases |s|
  {
    if s != [] {
      RemoveAbsent(s[1..], x);
      assert [s[0]] + s[1..] == s;
    }
  }

  lemma {:induction false} RemoveLast<T(!new)>(s: seq<T>, x: T)
    requires x !in s
    ensures Remove(s + [x], x) == s
    decreases |s|
  {
    if s == [] {
      assert Remove([x], x) == [] + Remove([x][1..], x);
    } else {
      assert (s + [x])[1..] == s[1..] + [x];
      RemoveLast(s[1..], x);
      assert [s[0]] + s[1..] == s;
    }
  }

  /** A list has no duplicates when its head is not in its tail and the
      tail has none. */
  lemma ConsNoDup<T>(x: T, t: seq<T>)
    ensures NoDup([x] + t) <==> x !in t && NoDup(t)
  {
    var r := [x] + t;
    if NoDup(r) {
      forall i, j | 0 <= i < j < |t| ensures t[i] != t[j] {
        assert t[i] == r[i + 1] && t[j] == r[j + 1];
      }
      forall k | 0 <= k < |t| ensures t[k] != x {
        assert r[0] == x && r[k + 1] == t[k];
      }
    }
    if x !in t && NoDup(t) {
      forall i, j | 0 <= i < j < |r| ensures r[i] != r[j] {
        assert r[j] == t[j - 1];
        if i > 0 { assert r[i] == t[i - 1]; }
      }
    }
  }

  lemma {:induction false} RemoveNoDup<T(!new)>(s: seq<T>, x: T)
    requires NoDup(s)
    ensures NoDup(Remove(s, x))
    decreases |s|
  {
    if s != [] {
      assert s == [s[0]] + s[1..];
      ConsNoDup(s[0], s[1..]);
      RemoveNoDup(s[1..], x);
      var rest := Remove(s[1..], x);
      if s[0] != x {
        ConsNoDup(s[0], rest);
      } else {
        assert [] + rest == rest;
      }
    }
  }

  /** A click on an ambiente: remove it when selected, append it otherwise. */
  function Toggle<T(==,!new)>(sel: seq<T>, x: T): seq<T> {
    if x in sel then Remove(sel, x) else sel + [x]
  }

  /** A click flips the membership of the clicked item only, and keeps the
      selection free of duplicates. */
  lemma ToggleSpec<T(!new)>(sel: seq<T>, x: T)
    ensures x in Toggle(sel, x) <==> x !in sel
    ensures forall y :: y != x ==> (y in Toggle(sel, x) <==> y in sel)
    ensures NoDup(sel) ==> NoDup(Toggle(sel, x))
  {
    if NoDup(sel) {
      if x in sel {
        RemoveNoDup(sel, x);
      } else {
        var r := sel + [x];
        forall i, j | 0 <= i < j < |r| ensures r[i] != r[j] {
          if j == |sel| { assert r[i] == sel[i]; } else { assert r[i] == sel[i] && r[j] == sel[j]; }
        }
      }
    }
  }

  /** Clicking the same ambiente twice gives back the same set; when it was
      not selected, even the order is the same. */
  lemma ToggleTwice<T(!new)>(sel: seq<T>, x: T)
    ensures forall y :: y in Toggle(Toggle(sel, x), x) <==> y in sel
    ensures x !in sel ==> Toggle(Toggle(sel, x), x) == sel
  {
    ToggleSpec(sel, x);
    ToggleSpec(Toggle(sel, x), x);
    if x !in sel {
      RemoveLast(sel, x);
    }
  }

  /** `all.filter { key(it.name) in keys }`. */
  function SelectByKey(all: seq<Ambiente>, keys: set<string>, key: string -> string): (r: seq<Ambiente>)
    ensures forall a :: a in r <==> a in all && key(a.name) in keys
    ensures |r| <= |all|
    decreases |all|
  {
    if all == [] then []
    else (if key(all[0].name) in keys then [all[0]] else []) + SelectByKey(all[1..], keys, key)
  }

  lemma {:induction false} SelectByKeyNoDup(all: seq<Ambiente>, keys: set<string>, key: string -> string)
    requires NoDup(all)
    ensures NoDup(SelectByKey(all, keys, key))
    decreases |all|
  {
    if all != [] {
      assert all == [all[0]] + all[1..];
      ConsNoDup(all[0], all[1..]);
      SelectByKeyNoDup(all[1..], keys, key);
      var rest := SelectByKey(all[1..], keys, key);
      if key(all[0].name) in keys {
        ConsNoDup(all[0], rest);
      } else {
        assert [] + rest == rest;
      }
    }
  }

  /** `selected.map { norm(it.name) }`. */
  function NamesOf(sel: seq<Ambiente>, norm: string -> string): (r: seq<string>)
    ensures |r| == |sel| && forall i :: 0 <= i < |sel| ==> r[i] == norm(sel[i].name)
  {
    seq(|sel|, i requires 0 <= i < |sel| => norm(sel[i].name))
  }

  /** No catalogue name holds a comma, ... */
  lemma CatalogueHasNoComma()
    ensures forall a :: a in Catalogue ==> !ContainsChar(a.name, ',')
  {
    forall k | 0 <= k < |Catalogue| ensures !ContainsChar(Catalogue[k].name, ',') {
      var n := Catalogue[k].name;
      assert forall i :: 0 <= i < |n| ==> n[i] != ',';
    }
  }

  /** ... and normalising never creates one. */
  lemma NormalizeTextNoComma(s: string)
    requires !ContainsChar(s, ',')
    ensures !ContainsChar(NormalizeText(s), ',')
  {
    var r := NormalizeText(s);
    var i := NormalizeTextCut(s);
    forall k | 0 <= k < |r| ensures r[k] != ',' {
      assert s[i + k] != ',';
    }
  }

  /** The `ambiente` field the create and edit screens send: the selected
      names, normalised, joined with commas. */
  function AmbienteField(sel: seq<Ambiente>): string {
    Join(NamesOf(sel, NormalizeText), ',')
  }

  /** Splitting that field on commas, as the service does, gives back the
      normalised names one by one, for any non-empty selection from the
      catalogue. */
  lemma AmbienteFieldSplits(sel: seq<Ambiente>)
    requires sel != [] && forall a :: a in sel ==> a in Catalogue
    ensures Split(AmbienteField(sel), ',') == NamesOf(sel, NormalizeText)
  {
    CatalogueHasNoComma();
    var names := NamesOf(sel, NormalizeText);
    forall k | 0 <= k < |names| ensures !ContainsChar(names[k], ',') {
      assert sel[k] in sel;
      NormalizeTextNoComma(sel[k].name);
    }
    SplitJoin(names, ',');
  }
}

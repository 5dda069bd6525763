/** Helpers that several screens repeat word for word: the digit/separator
    regular expressions (`^\d{4}-\d{2}-\d{2}$`, `^\d{2}:\d{2}(:\d{2})?$`),
    `ensureSeconds`, the date and time picker callbacks and `formatReviews`.
    `\d` is the ASCII digit class, as in the JVM's default regex flags. */
module Forms {
  import opened Text

  /** One position of a fixed-width pattern: a digit `\d` or a literal character. */
  datatype Tok = Digit | Lit(c: char)

  predicate TokMatches(t: Tok, c: char) {
    match t
    case Digit => IsDigit(c)
    case Lit(l) => c == l
  }

  /** `Regex("^...$").matches(s)` for a pattern made only of `\d` and literals. */
  function Matches(p: seq<Tok>, s: string): bool
    decreases |p|
  {
    if p == [] then s == []
    else s != [] && TokMatches(p[0], s[0]) && Matches(p[1..], s[1..])
  }

  /** A fixed-width pattern matches exactly the strings of its length whose
      every character fits the token at its position. */
  lemma {:induction false} MatchesIff(p: seq<Tok>, s: string)
    ensures Matches(p, s) <==> |p| == |s| && forall i :: 0 <= i < |p| ==> TokMatches(p[i], s[i])
    decreases |p|
  {
    if p != [] && s != [] {
      MatchesIff(p[1..], s[1..]);
      if |p| == |s| && TokMatches(p[0], s[0]) && Matches(p[1..], s[1..]) {
        forall i | 0 <= i < |p| ensures TokMatches(p[i], s[i]) {
          if i > 0 { assert p[1..][i - 1] == p[i] && s[1..][i - 1] == s[i]; }
        }
      }
      if |p| == |s| && forall i :: 0 <= i < |p| ==> TokMatches(p[i], s[i]) {
        forall i | 0 <= i < |p[1..]| ensures TokMatches(p[1..][i], s[1..][i]) {
          assert p[1..][i] == p[i + 1] && s[1..][i] == s[i + 1];
        }
      }
    }
  }

  const D2: seq<Tok> := [Digit, Digit]
  /** `\d{4}-\d{2}-\d{2}` */
  const YmdPattern: seq<Tok> := [Digit, Digit, Digit, Digit, Lit('-')] + D2 + [Lit('-')] + D2
  /** `\d{2}:\d{2}:\d{2}` */
  const HmsPattern: seq<Tok> := D2 + [Lit(':')] + D2 + [Lit(':')] + D2
  /** `\d{2}:\d{2}` */
  const HmPattern: seq<Tok> := D2 + [Lit(':')] + D2

  /** `isYyyyMmDd` (EditarEventoScreen): the trimmed text matches the date pattern. */
  predicate IsYyyyMmDd(s: string) {
    Matches(YmdPattern, Trim(s))
  }

  /** The date check accepts exactly ten characters `dddd-dd-dd` after
      trimming; month and day ranges are not checked. */
  lemma IsYyyyMmDdIff(s: string)
    ensures IsYyyyMmDd(s) <==>
      var t := Trim(s);
      |t| == 10 && AllDigits(t[..4]) && t[4] == '-' && AllDigits(t[5..7]) && t[7] == '-' && AllDigits(t[8..])
  {
    var t := Trim(s);
    MatchesIff(YmdPattern, t);
    if |t| == 10 {
      assert forall i :: 0 <= i < 4 ==> t[..4][i] == t[i];
      assert forall i :: 0 <= i < 2 ==> t[5..7][i] == t[5 + i] && t[8..][i] == t[8 + i];
    }
  }

  /** `ensureSeconds`: a trimmed `HH:MM:SS` is kept, a trimmed `HH:MM` gets
      `:00`, anything else is returned trimmed. */
  function EnsureSeconds(hhmm: string): (r: string)
  {
    var t := Trim(hhmm);
    if Matches(HmsPattern, t) then t
    else if Matches(HmPattern, t) then t + ":00"
    else t
  }

  predicate IsHms(t: string) {
    |t| == 8 && IsDigit(t[0]) && IsDigit(t[1]) && t[2] == ':' && IsDigit(t[3]) && IsDigit(t[4])
    && t[5] == ':' && IsDigit(t[6]) && IsDigit(t[7])
  }

  predicate IsHm(t: string) {
    |t| == 5 && IsDigit(t[0]) && IsDigit(t[1]) && t[2] == ':' && IsDigit(t[3]) && IsDigit(t[4])
  }

  lemma HmsPatternIff(t: string)
    ensures Matches(HmsPattern, t) <==> IsHms(t)
  {
    MatchesIff(HmsPattern, t);
  }

  lemma HmPatternIff(t: string)
    ensures Matches(HmPattern, t) <==> IsHm(t)
  {
    MatchesIff(HmPattern, t);
  }

  /** What `ensureSeconds` promises: the result is trimmed; it is a full
      `HH:MM:SS` whenever the input was `HH:MM` or `HH:MM:SS`, and otherwise
      it is the trimmed input. */
  lemma EnsureSecondsSpec(s: string)
    ensures var r := EnsureSeconds(s);
      && Trim(r) == r
      && (Matches(HmsPattern, Trim(s)) || Matches(HmPattern, Trim(s)) ==> Matches(HmsPattern, r))
      && (!Matches(HmPattern, Trim(s)) ==> r == Trim(s))
      && (Matches(HmPattern, Trim(s)) ==> r == Trim(s) + ":00")
  {
    var t := Trim(s);
    TrimIdempotent(s);
    HmPatternIff(t);
    HmsPatternIff(t);
    if IsHm(t) {
      var r := t + ":00";
      assert IsHms(r) by {
        assert r[0] == t[0] && r[1] == t[1] && r[2] == t[2] && r[3] == t[3] && r[4] == t[4];
      }
      HmsPatternIff(r);
      TrimOfSolid(r);
    }
  }

  /** Applying `ensureSeconds` to its own output changes nothing. */
  lemma EnsureSecondsIdempotent(s: string)
    ensures EnsureSeconds(EnsureSeconds(s)) == EnsureSeconds(s)
  {
    var r := EnsureSeconds(s);
    EnsureSecondsSpec(s);
    HmPatternIff(r);
    HmsPatternIff(r);
    if !IsHms(r) {
      HmPatternIff(Trim(s));
      assert !IsHm(r);
    }
  }

  /** Date picker callback: `"$y-$mm-$dd"` with the month one-based and month
      and day zero-padded to two digits. */
  function PickedDate(y: int, m: int, d: int): string {
    IntToString(y) + "-" + PadStart2(IntToString(m + 1)) + "-" + PadStart2(IntToString(d))
  }

  /** Time picker callback: `"$hh:$mm:00"`, both zero-padded. */
  function PickedTime(h: int, min: int): string {
    PadStart2(IntToString(h)) + ":" + PadStart2(IntToString(min)) + ":00"
  }

  /** A one- or two-digit number padded to two characters. */
  lemma Pad2(n: nat)
    requires n < 100
    ensures var r := PadStart2(NatToString(n));
      |r| == 2 && AllDigits(r) && DigitsValue(r) == n
  {
    var s := NatToString(n);
    NatToStringValue(n);
    if n < 10 {
      assert |s| == 1;
      var r := PadStart2(s);
      assert r == "0" + s;
      assert r[..1] == "0";
    } else {
      assert NatToString(n / 10) == [DigitChar(n / 10)];
    }
  }

  lemma FourDigits(y: nat)
    requires 1000 <= y <= 9999
    ensures |NatToString(y)| == 4
  {
    assert |NatToString(y / 1000)| == 1;
    assert |NatToString(y / 100)| == 2;
    assert |NatToString(y / 10)| == 3;
  }

  /** Where the three fields of `a-b-c` sit, for a four-digit `a` and
      two-digit `b` and `c`. */
  lemma DateSlices(a: string, b: string, c: string)
    requires |a| == 4 && |b| == 2 && |c| == 2
    ensures var r := a + "-" + b + "-" + c;
      |r| == 10 && r[..4] == a && r[4] == '-' && r[5..7] == b && r[7] == '-' && r[8..] == c
  {
    var r := a + "-" + b + "-" + c;
    assert r[..4] == a;
    assert r[5..7] == b;
    assert r[8..] == c;
  }

  /** A date the picker produces for a four-digit year is `yyyy-MM-dd`
      whose year, month and day read back as the picked ones (the month
      callback counts from 0). */
  lemma PickedDateFields(y: int, m: int, d: int)
    requires 1000 <= y <= 9999 && 0 <= m <= 11 && 1 <= d <= 31
    ensures var r := PickedDate(y, m, d);
      && |r| == 10 && r[4] == '-' && r[7] == '-'
      && AllDigits(r[..4]) && DigitsValue(r[..4]) == y
      && AllDigits(r[5..7]) && DigitsValue(r[5..7]) == m + 1
      && AllDigits(r[8..]) && DigitsValue(r[8..]) == d
  {
    var ys := NatToString(y);
    var ms := PadStart2(NatToString(m + 1));
    var ds := PadStart2(NatToString(d));
    FourDigits(y);
    NatToStringValue(y);
    Pad2(m + 1);
    Pad2(d);
    assert PickedDate(y, m, d) == ys + "-" + ms + "-" + ds;
    DateSlices(ys, ms, ds);
  }

  /** So every such date is its own trim and passes the date check of the
      edit screen. */
  lemma PickedDateValid(y: int, m: int, d: int)
    requires 1000 <= y <= 9999 && 0 <= m <= 11 && 1 <= d <= 31
    ensures Trim(PickedDate(y, m, d)) == PickedDate(y, m, d)
    ensures IsYyyyMmDd(PickedDate(y, m, d))
  {
    var r := PickedDate(y, m, d);
    PickedDateFields(y, m, d);
    assert IsDigit(r[0]) && IsDigit(r[9]) by {
      assert r[0] == r[..4][0] && r[9] == r[8..][1];
    }
    TrimOfSolid(r);
    IsYyyyMmDdIff(r);
  }

  /** Every time the picker can produce is already a full `HH:MM:SS`, so
      `ensureSeconds` leaves it alone. */
  lemma PickedTimeValid(h: int, min: int)
    requires 0 <= h < 24 && 0 <= min < 60
    ensures Matches(HmsPattern, PickedTime(h, min))
    ensures EnsureSeconds(PickedTime(h, min)) == PickedTime(h, min)
  {
    var r := PickedTime(h, min);
    assert IsHms(r) by {
      var hs := PadStart2(NatToString(h));
      var ms := PadStart2(NatToString(min));
      Pad2(h);
      Pad2(min);
      assert r == hs + ":" + ms + ":00";
      assert r[0] == hs[0] && r[1] == hs[1] && r[3] == ms[0] && r[4] == ms[1];
      assert r[2] == ':' && r[5] == ':' && r[6] == '0' && r[7] == '0';
    }
    HmsPatternIff(r);
    TrimOfSolid(r);
  }

  /** `formatReviews`: review counts from 200 on are shown as "200+". */
  function FormatReviews(n: int): string {
    if n >= 200 then "200+" else IntToString(n)
  }

  /** "200+" appears exactly for counts of at least 200; a count in 0..199
      is written in decimal. */
  lemma FormatReviewsSpec(n: int)
    ensures FormatReviews(n) == "200+" <==> n >= 200
    ensures 0 <= n < 200 ==> AllDigits(FormatReviews(n)) && DigitsValue(FormatReviews(n)) == n
  {
    if n < 200 {
      var r := FormatReviews(n);
      if n >= 0 {
        NatToStringValue(n);
        assert AllDigits(r);
        assert !IsDigit('+');
        assert r != "200+" by { assert "200+"[3] == '+'; if |r| == 4 { assert IsDigit(r[3]); } }
      } else {
        assert r[0] == '-';
      }
    }
  }

  /** Kotlin `coerceIn(lo, hi)`. */
  function CoerceIn(n: int, lo: int, hi: int): (r: int)
    requires lo <= hi
    ensures lo <= r <= hi
    ensures lo <= n <= hi ==> r == n
    ensures n < lo ==> r == lo
    ensures n > hi ==> r == hi
  {
    if n < lo then lo else if n > hi then hi else n
  }

  /** A row of five stars, the first `n` of them filled: the review card's
      `it < n` over indices 0..4, and the rating row's `i <= rating` over
      star numbers 1..5. */
  function StarRow(n: int): (r: seq<bool>)
    ensures |r| == 5
  {
    seq(5, i => i < n)
  }

  function FilledCount(stars: seq<bool>): nat
    decreases |stars|
  {
    if stars == [] then 0 else (if stars[0] then 1 else 0) + FilledCount(stars[1..])
  }

  /** A prefix of filled stars followed by empty ones has as many filled
      stars as the prefix is long. */
  lemma {:induction false} FilledPrefix(stars: seq<bool>, n: nat)
    requires n <= |stars|
    requires forall i :: 0 <= i < |stars| ==> (stars[i] <==> i < n)
    ensures FilledCount(stars) == n
    decreases |stars|
  {
    if stars != [] {
      var m := if n == 0 then 0 else n - 1;
      forall i | 0 <= i < |stars[1..]| ensures stars[1..][i] <==> i < m {
        assert stars[1..][i] == stars[i + 1];
      }
      FilledPrefix(stars[1..], m);
    }
  }

  /** A row for `n` in 0..5 shows exactly `n` filled stars, the first ones. */
  lemma StarRowCount(n: int)
    requires 0 <= n <= 5
    ensures FilledCount(StarRow(n)) == n
    ensures forall i :: 0 <= i < 5 ==> (StarRow(n)[i] <==> i < n)
  {
    FilledPrefix(StarRow(n), n);
  }
}

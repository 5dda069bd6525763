/** Image URLs. Every screen carries a private copy of `buildImageUrl` and
    `emulatorize`; the copies come in three variants, modelled here once,
    parameterised by the default file, by whether a `/` is inserted between
    the base and the path, and by whether the result is emulatorised (the
    loopback host rewritten to the address the Android emulator uses for
    its host machine). */
module Urls {
  import opened Text
  import opened Json

  const Loopback: string := "127.0.0.1"
  const EmulatorHost: string := "10.0.2.2"
  const Scheme: string := "http://"
  const Port: string := ":5000"
  /** `http://127.0.0.1:5000`, the server address the screens are written against. */
  const BaseUrl: string := Scheme + Loopback + Port
  /** `http://10.0.2.2:5000`. */
  const EmulatorBaseUrl: string := Scheme + EmulatorHost + Port
  const PhotosDir: string := "/_uploads/photos/"

  predicate LoopbackAt(s: string, i: nat) {
    i + |Loopback| <= |s| && s[i..i + |Loopback|] == Loopback
  }

  predicate ContainsLoopback(s: string) {
    exists i: nat :: i < |s| && LoopbackAt(s, i)
  }

  /** `url.replace("127.0.0.1", "10.0.2.2")`: a left-to-right scan that
      rewrites every occurrence it meets. */
  function Emulatorize(s: string): (r: string)
    ensures |r| <= |s|
    ensures s == [] <==> r == []
    decreases |s|
  {
    if |s| < |Loopback| then s
    else if s[0] == '1' && s[..|Loopback|] == Loopback then EmulatorHost + Emulatorize(s[|Loopback|..])
    else [s[0]] + Emulatorize(s[1..])
  }

  /** A character that cannot start the loopback host is copied through. */
  lemma EmulatorizeCons(c: char, t: string)
    requires c != '1'
    ensures Emulatorize([c] + t) == [c] + Emulatorize(t)
  {
    assert ([c] + t)[1..] == t;
  }

  /** The first output character is '1' exactly when the first input character is. */
  lemma EmulatorizeFirst(t: string)
    requires t != []
    ensures Emulatorize(t)[0] == '1' <==> t[0] == '1'
  {
  }

  /** Text with no loopback host is left as it is. */
  lemma {:induction false} EmulatorizeIdentity(s: string)
    requires !ContainsLoopback(s)
    ensures Emulatorize(s) == s
    decreases |s|
  {
    if |s| >= |Loopback| {
      assert !LoopbackAt(s, 0);
      forall i: nat ensures !LoopbackAt(s[1..], i) {
        assert !LoopbackAt(s, i + 1);
        if i + |Loopback| <= |s[1..]| {
          assert s[1..][i..i + |Loopback|] == s[i + 1..i + 1 + |Loopback|];
        }
      }
      EmulatorizeIdentity(s[1..]);
    }
  }

  /** Characters without a '1' pass through unchanged at the front. */
  lemma {:induction false} EmulatorizePassThrough(t: string, q: string)
    requires forall k :: 0 <= k < |q| ==> q[k] != '1'
    requires |q| <= |Emulatorize(t)| && Emulatorize(t)[..|q|] == q
    ensures |q| <= |t| && t[..|q|] == q
    ensures Emulatorize(t) == q + Emulatorize(t[|q|..])
    decreases |q|
  {
    if q != [] {
      var e := Emulatorize(t);
      assert e[0] == q[0];
      EmulatorizeFirst(t);
      assert t[0] != '1';
      assert t[0] == q[0] by {
        if |t| >= |Loopback| {
          assert t[..|Loopback|][0] == t[0];
        }
      }
      assert Emulatorize(t) == [t[0]] + Emulatorize(t[1..]) by {
        if |t| >= |Loopback| {
          assert t[..|Loopback|][0] == t[0];
        }
      }
      assert Emulatorize(t[1..])[..|q| - 1] == q[1..];
      EmulatorizePassThrough(t[1..], q[1..]);
      assert t[1..][|q| - 1..] == t[|q|..];
      assert t[..|q|] == [t[0]] + t[1..][..|q| - 1];
    }
  }

  /** No loopback host starts inside the emulator host. */
  lemma HostNoLoopback(t: string)
    requires !ContainsLoopback(t)
    ensures !ContainsLoopback(EmulatorHost + t)
  {
    var r := EmulatorHost + t;
    forall i: nat | i < |r| ensures !LoopbackAt(r, i) {
      if i + |Loopback| <= |r| {
        var w := r[i..i + |Loopback|];
        if i == 0 {
          assert w[1] == '0';
        } else if i < |EmulatorHost| {
          assert w[0] == EmulatorHost[i];
        } else {
          var k := i - |EmulatorHost|;
          assert w == t[k..k + |Loopback|];
          assert !LoopbackAt(t, k);
        }
      }
    }
  }

  /** The window at the front of `[c] + Emulatorize(u)` is not the loopback
      host when the input window at the front was not one. */
  lemma FrontNoLoopback(s: string)
    requires |s| >= |Loopback| && s[..|Loopback|] != Loopback
    ensures !LoopbackAt([s[0]] + Emulatorize(s[1..]), 0)
  {
    var u := s[1..];
    var t := Emulatorize(u);
    var r := [s[0]] + t;
    if |Loopback| <= |r| && s[0] == '1' {
      var q := "27.0.0.";
      if |q| <= |t| && t[..|q|] == q {
        EmulatorizePassThrough(u, q);
        EmulatorizeFirst(u[|q|..]);
        assert s[..|Loopback|] == [s[0]] + u[..|q|] + [s[8]];
        assert s[8] != '1';
        assert r[8] == Emulatorize(u[|q|..])[0];
        assert r[..|Loopback|][8] != '1';
      } else {
        assert r[1..8] != q;
        assert r[..|Loopback|][1..8] == r[1..8];
      }
    } else if |Loopback| <= |r| {
      assert r[..|Loopback|][0] != '1';
    }
  }

  lemma ConsNoLoopback(s: string)
    requires |s| >= |Loopback| && s[..|Loopback|] != Loopback
    requires !ContainsLoopback(Emulatorize(s[1..]))
    ensures !ContainsLoopback([s[0]] + Emulatorize(s[1..]))
  {
    var t := Emulatorize(s[1..]);
    var r := [s[0]] + t;
    FrontNoLoopback(s);
    forall i: nat | 0 < i < |r| ensures !LoopbackAt(r, i) {
      if i + |Loopback| <= |r| {
        assert r[i..i + |Loopback|] == t[i - 1..i - 1 + |Loopback|];
        assert !LoopbackAt(t, i - 1);
      }
    }
  }

  /** Every loopback host is gone from the output. */
  lemma {:induction false} EmulatorizeRemovesLoopback(s: string)
    ensures !ContainsLoopback(Emulatorize(s))
    decreases |s|
  {
    if |s| < |Loopback| {
    } else if s[..|Loopback|] == Loopback {
      EmulatorizeRemovesLoopback(s[|Loopback|..]);
      HostNoLoopback(Emulatorize(s[|Loopback|..]));
    } else {
      EmulatorizeRemovesLoopback(s[1..]);
      ConsNoLoopback(s);
    }
  }

  /** Emulatorising twice is emulatorising once. */
  lemma EmulatorizeIdempotent(s: string)
    ensures Emulatorize(Emulatorize(s)) == Emulatorize(s)
  {
    EmulatorizeRemovesLoopback(s);
    EmulatorizeIdentity(Emulatorize(s));
  }

  /** Text without '1' is copied through. */
  lemma {:induction false} EmulatorizeNoOnes(q: string, t: string)
    requires forall k :: 0 <= k < |q| ==> q[k] != '1'
    ensures Emulatorize(q + t) == q + Emulatorize(t)
    decreases |q|
  {
    if q == [] {
      assert q + t == t;
    } else {
      var q' := q[1..];
      EmulatorizeNoOnes(q', t);
      assert q + t == [q[0]] + (q' + t);
      EmulatorizeCons(q[0], q' + t);
      assert q == [q[0]] + q';
    }
  }

  /** A leading loopback host is rewritten, and the scan goes on after it. */
  lemma EmulatorizeLoopbackFront(tail: string)
    ensures Emulatorize(Loopback + tail) == EmulatorHost + Emulatorize(tail)
  {
    assert (Loopback + tail)[..|Loopback|] == Loopback;
    assert (Loopback + tail)[|Loopback|..] == tail;
  }

  /** The server base URL emulatorises to the emulator base URL, and the
      path after it is emulatorised on its own. */
  lemma EmulatorizeBase(p: string)
    ensures Emulatorize(BaseUrl + p) == EmulatorBaseUrl + Emulatorize(p)
  {
    SchemePortHaveNoOnes();
    var tail := Port + p;
    assert BaseUrl + p == Scheme + (Loopback + tail);
    EmulatorizeNoOnes(Scheme, Loopback + tail);
    EmulatorizeLoopbackFront(tail);
    EmulatorizeNoOnes(Port, p);
    assert EmulatorBaseUrl + Emulatorize(p) == Scheme + (EmulatorHost + (Port + Emulatorize(p)));
  }

  lemma SchemePortHaveNoOnes()
    ensures forall k :: 0 <= k < |Scheme| ==> Scheme[k] != '1'
    ensures forall k :: 0 <= k < |Port| ==> Port[k] != '1'
  {
  }

  lemma PhotosDirHasNoOnes()
    ensures forall k :: 0 <= k < |PhotosDir| ==> PhotosDir[k] != '1'
  {
  }

  lemma PlainPhotosUrl()
    ensures BaseUrl + PhotosDir == "http://127.0.0.1:5000/_uploads/photos/"
  {
  }


  /** How a screen's copy of `buildImageUrl` behaves. */
  datatype UrlStyle = UrlStyle(
    defaultFile: Option<string>,  // used for a null or blank path; None: no such check
    insertSlash: bool,            // base + ("/" unless the path has one) + path; else trimmed base + path
    emulate: bool)                // result passed through Emulatorize

  /** admin screens, DatosPerfil, EventosActividades: blank gives a default,
      a single `/` is inserted, no emulatorisation. */
  const PlainDefaultPng := UrlStyle(Some("default.png"), true, false)
  const PlainDefaultEstablecimiento := UrlStyle(Some("default_establecimiento.png"), true, false)
  /** CrearEvento, CrearEstablecimiento: non-null path, `/` inserted, emulatorised. */
  const EmulatedSlash := UrlStyle(None, true, true)
  /** user establishment, home, event and offer screens: emulatorised, path
      appended to the base as it is. */
  const EmulatedDefaultPng := UrlStyle(Some("default.png"), false, true)
  const EmulatedDefaultEstablecimiento := UrlStyle(Some("default_establecimiento.png"), false, true)

  function Finish(style: UrlStyle, url: string): string {
    if style.emulate then Emulatorize(url) else url
  }

  function Joined(style: UrlStyle, path: string): string {
    if style.insertSlash then BaseUrl + (if StartsWith(path, "/") then path else "/" + path)
    else TrimCharEnd(BaseUrl, '/') + path
  }

  predicate IsNullOrBlank(path: Option<string>) {
    path.None? || IsBlank(path.value)
  }

  /** The URL before the optional emulatorisation. */
  function RawImageUrl(style: UrlStyle, path: Option<string>): string {
    if style.defaultFile.Some? && IsNullOrBlank(path) then BaseUrl + PhotosDir + style.defaultFile.value
    else
      var p := if path.Some? then path.value else "";
      if StartsWith(p, "http") then p else Joined(style, p)
  }

  function BuildImageUrl(style: UrlStyle, path: Option<string>): string {
    Finish(style, RawImageUrl(style, path))
  }

  /** An emulated variant never hands the loopback host to the image loader. */
  lemma EmulatedNoLoopback(style: UrlStyle, path: Option<string>)
    requires style.emulate
    ensures !ContainsLoopback(BuildImageUrl(style, path))
  {
    EmulatorizeRemovesLoopback(RawImageUrl(style, path));
  }

  /** Drop one leading `/`. */
  function DropSlash(p: string): string {
    if StartsWith(p, "/") then p[1..] else p
  }

  /** Inserting the one `/` a path needs. */
  lemma SlashJoined(p: string)
    ensures BaseUrl + (if StartsWith(p, "/") then p else "/" + p) == "http://127.0.0.1:5000/" + DropSlash(p)
  {
    if StartsWith(p, "/") {
      assert p == "/" + p[1..];
    }
  }

  /** The unemulated variant: a null or blank path gives the default file
      under the photos directory; an `http` path is returned as it is; any
      other path follows the base after exactly the one `/` it needs. */
  lemma PlainImageUrl(file: string, path: Option<string>)
    ensures var r := BuildImageUrl(UrlStyle(Some(file), true, false), path);
      && (IsNullOrBlank(path) ==> r == "http://127.0.0.1:5000/_uploads/photos/" + file)
      && (!IsNullOrBlank(path) && StartsWith(path.value, "http") ==> r == path.value)
      && (!IsNullOrBlank(path) && !StartsWith(path.value, "http") ==>
            r == "http://127.0.0.1:5000/" + DropSlash(path.value))
  {
    if IsNullOrBlank(path) {
      PlainPhotosUrl();
    } else {
      SlashJoined(path.value);
    }
  }

  /** The emulated variants with a default file: everything lands on the
      emulator host, with no `/` inserted between base and path. */
  lemma EmulatedImageUrl(file: string, path: Option<string>)
    ensures var r := BuildImageUrl(UrlStyle(Some(file), false, true), path);
      && (IsNullOrBlank(path) ==> r == EmulatorBaseUrl + PhotosDir + Emulatorize(file))
      && (!IsNullOrBlank(path) && StartsWith(path.value, "http") ==> r == Emulatorize(path.value))
      && (!IsNullOrBlank(path) && !StartsWith(path.value, "http") ==>
            r == EmulatorBaseUrl + Emulatorize(path.value))
  {
    if IsNullOrBlank(path) {
      EmulatedDefault(file, path);
    } else if !StartsWith(path.value, "http") {
      EmulatedJoined(file, path.value);
    }
  }

  lemma EmulatedPhotos(file: string)
    ensures Emulatorize(BaseUrl + PhotosDir + file) == EmulatorBaseUrl + PhotosDir + Emulatorize(file)
  {
    var q := PhotosDir + file;
    assert BaseUrl + PhotosDir + file == BaseUrl + q;
    EmulatorizeBase(q);
    PhotosDirHasNoOnes();
    EmulatorizeNoOnes(PhotosDir, file);
    assert EmulatorBaseUrl + (PhotosDir + Emulatorize(file)) == EmulatorBaseUrl + PhotosDir + Emulatorize(file);
  }

  lemma EmulatedDefault(file: string, path: Option<string>)
    requires IsNullOrBlank(path)
    ensures BuildImageUrl(UrlStyle(Some(file), false, true), path)
      == EmulatorBaseUrl + PhotosDir + Emulatorize(file)
  {
    assert RawImageUrl(UrlStyle(Some(file), false, true), path) == BaseUrl + PhotosDir + file;
    EmulatedPhotos(file);
  }


  lemma EmulatedJoined(file: string, p: string)
    requires !IsBlank(p) && !StartsWith(p, "http")
    ensures BuildImageUrl(UrlStyle(Some(file), false, true), Some(p)) == EmulatorBaseUrl + Emulatorize(p)
  {
    assert TrimCharEnd(BaseUrl, '/') == BaseUrl;
    assert BuildImageUrl(UrlStyle(Some(file), false, true), Some(p)) == Emulatorize(BaseUrl + p);
    EmulatorizeBase(p);
  }

  /** The emulated variant without default: an `http` path is emulatorised
      as it is; any other path follows the emulator base after exactly the
      one `/` it needs. */
  lemma EmulatedSlashImageUrl(path: string)
    ensures var r := BuildImageUrl(EmulatedSlash, Some(path));
      && (StartsWith(path, "http") ==> r == Emulatorize(path))
      && (!StartsWith(path, "http") ==> r == EmulatorBaseUrl + "/" + Emulatorize(DropSlash(path)))
  {
    if !StartsWith(path, "http") {
      var rest := DropSlash(path);
      var j := if StartsWith(path, "/") then path else "/" + path;
      assert j == "/" + rest by {
        if StartsWith(path, "/") {
          assert path == "/" + path[1..];
        }
      }
      assert BuildImageUrl(EmulatedSlash, Some(path)) == Emulatorize(BaseUrl + j);
      EmulatorizeBase(j);
      EmulatorizeNoOnes("/", rest);
      assert EmulatorBaseUrl + ("/" + Emulatorize(rest)) == EmulatorBaseUrl + "/" + Emulatorize(rest);
    }
  }
}

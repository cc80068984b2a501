/**
 * Artifact file naming from internal/output/writer.go (`generateSafeFilename`). Go strings are
 * byte strings and `len` and slicing count bytes, so names are modelled as `Bytes`. The URL
 * parser and the clock are inputs: `parsedHost` is `None` when `url.Parse` fails and otherwise
 * `Some` of what `Hostname()` returns; `timestamp` is the formatted capture time.
 */
module OutputWriter {
  import opened Wrappers
  import opened GoStrings

  /** The longest name `generateSafeFilename` lets through before it re-appends the extension. */
  const MaxFilenameLength: nat := 250

  /** The bytes of an ASCII string literal. */
  function Ascii(s: string): (b: Bytes)
    requires forall i :: 0 <= i < |s| ==> s[i] < 128 as char
    ensures |b| == |s| && forall i :: 0 <= i < |s| ==> b[i] == s[i] as int
  {
    seq(|s|, i requires 0 <= i < |s| => s[i] as int)
  }

  /** `strings.TrimPrefix`: removes one leading copy of `p`, if there is one. */
  function TrimPrefix(s: Bytes, p: Bytes): (r: Bytes)
    ensures HasPrefix(s, p) ==> s == p + r
    ensures !HasPrefix(s, p) ==> r == s
  {
    if HasPrefix(s, p) then s[|p|..] else s
  }

  /** `strings.TrimSuffix`: removes one trailing copy of `p`, if there is one. */
  function TrimSuffix(s: Bytes, p: Bytes): (r: Bytes)
    ensures HasSuffix(s, p) ==> s == r + p
    ensures !HasSuffix(s, p) ==> r == s
  {
    if HasSuffix(s, p) then s[..|s| - |p|] else s
  }

  /** The six bytes the replacer rewrites. */
  predicate IsReserved(b: byte) {
    b == ':' as int || b == '/' as int || b == '?' as int
    || b == '#' as int || b == '&' as int || b == '=' as int
  }

  const Underscore: byte := '_' as int

  /** The literals "http://", "https://" and "/" that the fallback trims. */
  const HttpScheme: Bytes := ['h' as int, 't' as int, 't' as int, 'p' as int, ':' as int, '/' as int, '/' as int]
  const HttpsScheme: Bytes := ['h' as int, 't' as int, 't' as int, 'p' as int, 's' as int, ':' as int, '/' as int, '/' as int]
  const Slash: Bytes := ['/' as int]

  /**
   * The `strings.NewReplacer` of lines 65-72: every old and new string is one byte long, so
   * each byte is rewritten on its own and the length never changes.
   */
  function Sanitize(h: Bytes): (r: Bytes)
    ensures |r| == |h|
    ensures forall i :: 0 <= i < |h| && !IsReserved(h[i]) ==> r[i] == h[i]
    ensures forall i :: 0 <= i < |h| && IsReserved(h[i]) ==> r[i] == Underscore
    ensures forall i :: 0 <= i < |r| ==> !IsReserved(r[i])
  {
    seq(|h|, i requires 0 <= i < |h| => if IsReserved(h[i]) then Underscore else h[i])
  }

  /** Sanitizing a sanitized name changes nothing. */
  lemma SanitizeIdempotent(h: Bytes)
    ensures Sanitize(Sanitize(h)) == Sanitize(h)
  {
  }

  /** A name with no reserved byte is its own sanitized form. */
  lemma SanitizeFixesClean(h: Bytes)
    requires forall i :: 0 <= i < |h| ==> !IsReserved(h[i])
    ensures Sanitize(h) == h
  {
  }

  /** The fallback of lines 58-61, used when the parser yields no hostname. */
  function FallbackHost(targetURL: Bytes): (h: Bytes)
    ensures |targetURL| - 16 <= |h| <= |targetURL|
    ensures (!HasPrefix(targetURL, HttpScheme) && !HasPrefix(targetURL, HttpsScheme)
             && !HasSuffix(targetURL, Slash)) ==> h == targetURL
  {
    var noHttp := TrimPrefix(targetURL, HttpScheme);
    var noHttps := TrimPrefix(noHttp, HttpsScheme);
    TrimSuffix(noHttps, Slash)
  }

  /**
   * Each trim happens at most once and in the order written: a doubled "http://" keeps its
   * second copy, "http://" then "https://" loses both, and of two trailing slashes one stays.
   */
  lemma {:induction false} FallbackHostStripsOnce(v: Bytes)
    ensures FallbackHost(HttpScheme + HttpScheme + v) == TrimSuffix(HttpScheme + v, Slash)
    ensures FallbackHost(HttpScheme + HttpsScheme + v) == TrimSuffix(v, Slash)
    ensures !HasPrefix(v + Slash + Slash, HttpScheme) && !HasPrefix(v + Slash + Slash, HttpsScheme)
            ==> FallbackHost(v + Slash + Slash) == v + Slash
  {
    var u1 := HttpScheme + HttpScheme + v;
    assert u1 == HttpScheme + (HttpScheme + v);
    assert u1[..|HttpScheme|] == HttpScheme;
    assert (HttpScheme + v)[4] != HttpsScheme[4];
    var u2 := HttpScheme + HttpsScheme + v;
    assert u2 == HttpScheme + (HttpsScheme + v);
    assert u2[..|HttpScheme|] == HttpScheme;
    assert (HttpsScheme + v)[..|HttpsScheme|] == HttpsScheme;
    var u3 := v + Slash + Slash;
    assert u3 == (v + Slash) + Slash;
    assert u3[|u3| - 1..] == Slash;
  }

  /** The hostname the name is built from (lines 52-62). */
  function HostPart(parsedHost: Option<Bytes>, targetURL: Bytes): (h: Bytes)
    ensures parsedHost.Some? && parsedHost.value != [] ==> h == parsedHost.value
    ensures parsedHost.None? || parsedHost.value == [] ==> h == FallbackHost(targetURL)
  {
    if parsedHost.Some? && parsedHost.value != [] then parsedHost.value else FallbackHost(targetURL)
  }

  /** The `fmt.Sprintf("%s_%s%s", ...)` of line 78, before any length cap. */
  function JoinedName(host: Bytes, timestamp: Bytes, extension: Bytes): Bytes {
    Sanitize(host) + [Underscore] + timestamp + extension
  }

  /**
   * `generateSafeFilename`: the joined name when it fits in 250 bytes; otherwise its first 250
   * bytes with the extension appended once more.
   */
  function GenerateSafeFilename(parsedHost: Option<Bytes>, targetURL: Bytes, timestamp: Bytes,
                                extension: Bytes): (name: Bytes)
    ensures var joined := JoinedName(HostPart(parsedHost, targetURL), timestamp, extension);
            (|joined| <= MaxFilenameLength ==> name == joined)
            && (|joined| > MaxFilenameLength ==>
                  name == joined[..MaxFilenameLength] + extension
                  && |name| == MaxFilenameLength + |extension|)
    ensures HasSuffix(name, extension)
    ensures |name| <= MaxFilenameLength + |extension|
  {
    var filename := JoinedName(HostPart(parsedHost, targetURL), timestamp, extension);
    if |filename| > MaxFilenameLength then filename[..MaxFilenameLength] + extension else filename
  }

  /**
   * The name starts with the sanitized hostname (cut at 250 bytes), so none of its first bytes
   * is reserved, and when the name was not cut it is host, '_', timestamp, extension.
   */
  lemma SafeFilenameLayout(parsedHost: Option<Bytes>, targetURL: Bytes,
                            timestamp: Bytes, extension: Bytes)
    ensures var host := Sanitize(HostPart(parsedHost, targetURL));
            var name := GenerateSafeFilename(parsedHost, targetURL, timestamp, extension);
            var n := if |host| < MaxFilenameLength then |host| else MaxFilenameLength;
            n <= |name| && name[..n] == host[..n]
            && (forall i :: 0 <= i < n ==> !IsReserved(name[i]))
            && (|host| + 1 + |timestamp| + |extension| <= MaxFilenameLength ==>
                  name == host + [Underscore] + timestamp + extension)
  {
  }

  /**
   * As written, a sanitized hostname of 250 bytes or more fills the whole cap, so the timestamp
   * is cut off and two captures at different times get the same name.
   */
  lemma LongHostDropsTimestamp(parsedHost: Option<Bytes>, targetURL: Bytes,
                              ts1: Bytes, ts2: Bytes, extension: Bytes)
    requires |HostPart(parsedHost, targetURL)| >= MaxFilenameLength
    ensures GenerateSafeFilename(parsedHost, targetURL, ts1, extension)
         == GenerateSafeFilename(parsedHost, targetURL, ts2, extension)
  {
  }

  /**
   * A concrete case: a target line with no scheme, 250 bytes of `a`, parses with an empty
   * hostname, falls back to itself, and the timestamps 20260101_000000 and 20260101_000001
   * give the same `.png` name.
   */
  lemma SchemelessLongTargetCollides()
    ensures var target: Bytes := seq(MaxFilenameLength, _ => 'a' as int);
            var ts1 := Ascii("20260101_000000");
            var ts2 := Ascii("20260101_000001");
            ts1 != ts2
            && GenerateSafeFilename(Some([]), target, ts1, Ascii(".png"))
               == GenerateSafeFilename(Some([]), target, ts2, Ascii(".png"))
  {
    var target: Bytes := seq(MaxFilenameLength, _ => 'a' as int);
    var ts1 := Ascii("20260101_000000");
    var ts2 := Ascii("20260101_000001");
    assert ts1[14] != ts2[14];
    assert !HasPrefix(target, HttpScheme) by { assert target[0] != HttpScheme[0]; }
    assert !HasPrefix(target, HttpsScheme) by { assert target[0] != HttpsScheme[0]; }
    assert !HasSuffix(target, Slash) by { assert target[|target| - 1] != Slash[0]; }
    LongHostDropsTimestamp(Some([]), target, ts1, ts2, Ascii(".png"));
  }

  /**
   * The evidently intended naming: the hostname alone is cut so that '_', the timestamp and
   * the extension always survive and the whole name stays within 250 bytes.
   */
  function SafeFilenameKeepingTimestamp(parsedHost: Option<Bytes>, targetURL: Bytes,
                                        timestamp: Bytes, extension: Bytes): (name: Bytes)
    requires 1 + |timestamp| + |extension| <= MaxFilenameLength
    ensures |name| <= MaxFilenameLength
    ensures HasSuffix(name, [Underscore] + timestamp + extension)
    ensures var host := Sanitize(HostPart(parsedHost, targetURL));
            var kept := |name| - (1 + |timestamp| + |extension|);
            kept <= |host| && name[..kept] == host[..kept]
  {
    var host := Sanitize(HostPart(parsedHost, targetURL));
    var room := MaxFilenameLength - (1 + |timestamp| + |extension|);
    var kept := if |host| > room then host[..room] else host;
    assert kept + [Underscore] + timestamp + extension == kept + ([Underscore] + timestamp + extension);
    kept + [Underscore] + timestamp + extension
  }

  /** With the corrected cap, captures at different times (same format width) never share a name. */
  lemma {:induction false} KeepingTimestampDistinguishesTimes(parsedHost: Option<Bytes>,
      targetURL: Bytes, ts1: Bytes, ts2: Bytes, extension: Bytes)
    requires 1 + |ts1| + |extension| <= MaxFilenameLength
    requires |ts1| == |ts2| && ts1 != ts2
    ensures SafeFilenameKeepingTimestamp(parsedHost, targetURL, ts1, extension)
         != SafeFilenameKeepingTimestamp(parsedHost, targetURL, ts2, extension)
  {
    var n1 := SafeFilenameKeepingTimestamp(parsedHost, targetURL, ts1, extension);
    var n2 := SafeFilenameKeepingTimestamp(parsedHost, targetURL, ts2, extension);
    var s1 := [Underscore] + ts1 + extension;
    var s2 := [Underscore] + ts2 + extension;
    assert |n1| == |n2|;
    var i :| 0 <= i < |ts1| && ts1[i] != ts2[i];
    assert s1[1 + i] != s2[1 + i];
    assert n1[|n1| - |s1| + 1 + i] != n2[|n2| - |s2| + 1 + i];
  }

  /** Where the written code does not cut, the corrected naming gives the same name. */
  lemma {:induction false} KeepingTimestampAgreesWhenShort(parsedHost: Option<Bytes>,
      targetURL: Bytes, timestamp: Bytes, extension: Bytes)
    requires |JoinedName(HostPart(parsedHost, targetURL), timestamp, extension)| <= MaxFilenameLength
    ensures SafeFilenameKeepingTimestamp(parsedHost, targetURL, timestamp, extension)
         == GenerateSafeFilename(parsedHost, targetURL, timestamp, extension)
  {
  }
}

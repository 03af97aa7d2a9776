/** Character and string helpers shared by every part of the model: ASCII case
    folding, substring search, decimal rendering and parsing of numbers, the
    `m:ss` clock text, JavaScript's `String.prototype.trim` and
    `encodeURIComponent`. Strings are sequences of Unicode scalar values;
    JavaScript counts UTF-16 code units, which is the same count for text
    without characters beyond U+FFFF. */
module Text {
  import opened Wrappers

  // ---------------------------------------------------------------------------
  // Character classes

  predicate IsDigit(c: char) { '0' <= c <= '9' }

  predicate IsAsciiLetter(c: char) { 'a' <= c <= 'z' || 'A' <= c <= 'Z' }

  predicate IsAlnum(c: char) { IsAsciiLetter(c) || IsDigit(c) }

  /** The class `[a-zA-Z0-9_-]`; it is also the class `[\w-]`. */
  predicate IsIdChar(c: char) { IsAlnum(c) || c == '_' || c == '-' }

  /** The characters a regular-expression `.` does not match. */
  predicate IsLineTerminator(c: char) {
    c == '\n' || c == '\r' || c == '\U{2028}' || c == '\U{2029}'
  }

  /** ECMAScript WhiteSpace and LineTerminator code units: what `trim` removes
      and what `\s` matches. */
  predicate IsJsSpace(c: char) {
    || c == '\t' || c == '\U{000B}' || c == '\U{000C}' || c == ' '
    || c == '\U{00A0}' || c == '\U{FEFF}' || c == '\U{1680}'
    || ('\U{2000}' <= c <= '\U{200A}')
    || c == '\U{202F}' || c == '\U{205F}' || c == '\U{3000}'
    || IsLineTerminator(c)
  }

  // ---------------------------------------------------------------------------
  // ASCII case folding (`toLowerCase` restricted to ASCII)

  function LowerChar(c: char): char {
    if 'A' <= c <= 'Z' then (c as int + 32) as char else c
  }

  function Lower(s: string): (r: string)
    ensures |r| == |s|
    ensures forall i :: 0 <= i < |s| ==> r[i] == LowerChar(s[i])
  {
    seq(|s|, i requires 0 <= i < |s| => LowerChar(s[i]))
  }

  /** Lower-casing commutes with concatenation and slicing. */
  lemma LowerConcat(a: string, b: string)
    ensures Lower(a + b) == Lower(a) + Lower(b)
  {
  }

  /** Lower-casing twice changes nothing more. */
  lemma LowerIdempotent(s: string)
    ensures Lower(Lower(s)) == Lower(s)
  {
  }

  lemma LowerSlice(s: string, i: nat, j: nat)
    requires i <= j <= |s|
    ensures Lower(s[i..j]) == Lower(s)[i..j]
  {
  }

  // ---------------------------------------------------------------------------
  // Substrings

  /** `k` occurs in `s` starting at index `i`. */
  predicate StartsAt(s: string, i: nat, k: string) {
    i + |k| <= |s| && s[i..i + |k|] == k
  }

  /** Leftmost occurrence of `k` in `s` at or after `from` (`indexOf`). */
  function IndexOfFrom(s: string, k: string, from: nat): (r: Option<nat>)
    ensures r.Some? ==> from <= r.value && StartsAt(s, r.value, k)
    ensures r.Some? ==> forall j :: from <= j < r.value ==> !StartsAt(s, j, k)
    ensures r.None? ==> forall j :: from <= j ==> !StartsAt(s, j, k)
    decreases |s| - from
  {
    if from + |k| > |s| then None
    else if StartsAt(s, from, k) then Some(from)
    else IndexOfFrom(s, k, from + 1)
  }

  function IndexOf(s: string, k: string): Option<nat> {
    IndexOfFrom(s, k, 0)
  }

  /** `s.includes(k)`. */
  predicate Contains(s: string, k: string) {
    IndexOf(s, k).Some?
  }

  lemma ContainsIff(s: string, k: string)
    ensures Contains(s, k) <==> exists i :: 0 <= i <= |s| && StartsAt(s, i, k)
  {
  }

  lemma OccurrenceContains(s: string, i: nat, k: string)
    requires StartsAt(s, i, k)
    ensures Contains(s, k)
  {
  }

  /** An occurrence survives putting text around the string. */
  lemma ContainsExtend(p: string, s: string, q: string, k: string)
    requires Contains(s, k)
    ensures Contains(p + s + q, k)
  {
    var i := IndexOf(s, k).value;
    var t := p + s + q;
    assert t[|p| + i..|p| + i + |k|] == s[i..i + |k|];
    OccurrenceContains(t, |p| + i, k);
  }

  /** The leftmost occurrence of `k` is at `i` when `k` occurs there and nowhere before. */
  lemma IndexOfIs(s: string, k: string, i: nat)
    requires StartsAt(s, i, k)
    requires forall j :: 0 <= j < i ==> !StartsAt(s, j, k)
    ensures IndexOf(s, k) == Some(i)
  {
  }

  /** Every character of `s` differs from `c`. */
  predicate Avoids(s: string, c: char) {
    forall i :: 0 <= i < |s| ==> s[i] != c
  }

  /** A separator that `a` avoids is found right after `a`. */
  lemma IndexOfAfter(a: string, c: char, b: string)
    requires Avoids(a, c)
    ensures IndexOf(a + [c] + b, [c]) == Some(|a|)
  {
    var t := a + [c] + b;
    assert StartsAt(t, |a|, [c]);
    forall j | 0 <= j < |a| ensures !StartsAt(t, j, [c]) {
      assert t[j] == a[j];
    }
    IndexOfIs(t, [c], |a|);
  }

  // ---------------------------------------------------------------------------
  // JavaScript truthiness of optional strings

  /** `undefined`, `null` and `''` are falsy. */
  predicate Truthy(o: Option<string>) {
    o.Some? && o.value != ""
  }

  /** `o || fallback`. */
  function OrElse(o: Option<string>, fallback: string): (r: string)
    ensures Truthy(o) ==> r == o.value
    ensures !Truthy(o) ==> r == fallback
  {
    if Truthy(o) then o.value else fallback
  }

  // ---------------------------------------------------------------------------
  // Replacing the first occurrence

  /** `s.replace(k, w)` for a string pattern `k`: the leftmost occurrence of
      `k`, if any, is replaced by `w`. */
  function ReplaceFirst(s: string, k: string, w: string): string {
    match IndexOf(s, k)
    case None => s
    case Some(i) => s[..i] + w + s[i + |k|..]
  }

  /** Without an occurrence the text is unchanged; otherwise the text around
      the leftmost occurrence is kept and only that occurrence is replaced. */
  lemma ReplaceFirstProperties(s: string, k: string, w: string)
    ensures !Contains(s, k) ==> ReplaceFirst(s, k, w) == s
    ensures Contains(s, k) ==>
              var i := IndexOf(s, k).value;
              && StartsAt(s, i, k)
              && (forall j :: 0 <= j < i ==> !StartsAt(s, j, k))
              && ReplaceFirst(s, k, w) == s[..i] + w + s[i + |k|..]
  {
  }

  /** A text that starts with `k` loses exactly that prefix. */
  lemma ReplaceLeadingOccurrence(k: string, rest: string)
    ensures ReplaceFirst(k + rest, k, "") == rest
  {
    var s := k + rest;
    assert StartsAt(s, 0, k);
    IndexOfIs(s, k, 0);
    assert s[|k|..] == rest;
  }

  // ---------------------------------------------------------------------------
  // encodeURIComponent

  /** The characters `encodeURIComponent` leaves as they are. */
  predicate IsUnreserved(c: char) {
    IsAlnum(c) || c in "-_.!~*'()"
  }

  function HexDigit(d: nat): (c: char)
    requires d < 16
    ensures IsAlnum(c)
  {
    if d < 10 then DigitChar(d) else ('A' as int + d - 10) as char
  }

  /** The UTF-8 bytes of a code point. */
  function Utf8(cp: nat): (bytes: seq<nat>)
    requires cp < 0x11_0000
    ensures 1 <= |bytes| <= 4 && forall i :: 0 <= i < |bytes| ==> bytes[i] < 256
    ensures cp < 0x80 <==> bytes == [cp]
  {
    if cp < 0x80 then [cp]
    else if cp < 0x800 then [0xC0 + cp / 64, 0x80 + cp % 64]
    else if cp < 0x1_0000 then [0xE0 + cp / 4096, 0x80 + (cp / 64) % 64, 0x80 + cp % 64]
    else [0xF0 + cp / 262144, 0x80 + (cp / 4096) % 64, 0x80 + (cp / 64) % 64, 0x80 + cp % 64]
  }

  /** `%XX` for each byte, with upper-case hexadecimal digits. */
  function PercentBytes(bytes: seq<nat>): (r: string)
    requires forall i :: 0 <= i < |bytes| ==> bytes[i] < 256
    ensures |r| == 3 * |bytes|
    ensures forall i :: 0 <= i < |r| ==> r[i] == '%' || IsAlnum(r[i])
    ensures forall i :: 0 <= i < |r| ==> (r[i] == '%' <==> i % 3 == 0)
  {
    if bytes == [] then []
    else
      var b := bytes[0];
      var rest := PercentBytes(bytes[1..]);
      var r := ['%', HexDigit(b / 16), HexDigit(b % 16)] + rest;
      assert forall i :: 3 <= i < |r| ==> r[i] == rest[i - 3];
      r
  }

  function EncodeChar(c: char): (r: string)
    ensures IsUnreserved(c) ==> r == [c]
    ensures forall i :: 0 <= i < |r| ==> IsUnreserved(r[i]) || r[i] == '%'
  {
    if IsUnreserved(c) then [c] else PercentBytes(Utf8(c as int))
  }

  /** `encodeURIComponent(s)`. */
  function EncodeURIComponent(s: string): (r: string)
    ensures forall i :: 0 <= i < |r| ==> IsUnreserved(r[i]) || r[i] == '%'
    decreases |s|
  {
    if s == [] then []
    else
      var h := EncodeChar(s[0]);
      var t := EncodeURIComponent(s[1..]);
      assert forall i :: |h| <= i < |h + t| ==> (h + t)[i] == t[i - |h|];
      h + t
  }

  /** The `fetch` target both pages use to ask for a video's data:
      `${baseUrl}/api/download?url=${encodeURIComponent(url)}`. */
  function InfoRequestUrl(baseUrl: string, url: string): string {
    baseUrl + "/api/download?url=" + EncodeURIComponent(url)
  }

  /** An optional string as a template literal prints it: a missing value
      becomes the text `undefined`. */
  function UrlText(url: Option<string>): string {
    if url.Some? then url.value else "undefined"
  }

  /** The encoding works character by character. */
  lemma {:induction false} EncodeConcat(a: string, b: string)
    ensures EncodeURIComponent(a + b) == EncodeURIComponent(a) + EncodeURIComponent(b)
    decreases |a|
  {
    if a == [] {
      assert a + b == b;
    } else {
      assert (a + b)[0] == a[0];
      assert (a + b)[1..] == a[1..] + b;
      EncodeConcat(a[1..], b);
    }
  }

  /** Text made of unreserved characters is not changed. */
  lemma {:induction false} EncodeUnreserved(s: string)
    requires forall i :: 0 <= i < |s| ==> IsUnreserved(s[i])
    ensures EncodeURIComponent(s) == s
    decreases |s|
  {
    if s != [] {
      EncodeUnreserved(s[1..]);
    }
  }

  /** The encoding holds none of the characters that delimit or alter a
      query value (`&`, `=`, `#`, `+`, `?`, `/`, space), so the encoded text
      is read back as one query parameter. */
  lemma EncodedIsOneQueryValue(s: string)
    ensures var r := EncodeURIComponent(s);
            forall i :: 0 <= i < |r| ==> r[i] !in "&=#+?/ "
  {
    var r := EncodeURIComponent(s);
    forall i | 0 <= i < |r| ensures r[i] !in "&=#+?/ " {
      var c := r[i];
      assert IsUnreserved(c) || c == '%';
      assert c in "&=#+?/ " ==> c == '&' || c == '=' || c == '#' || c == '+' || c == '?' || c == '/' || c == ' ';
      assert c in "-_.!~*'()" ==> c == '-' || c == '_' || c == '.' || c == '!' || c == '~' || c == '*'
                                  || c == '\'' || c == '(' || c == ')';
    }
  }

  // ---------------------------------------------------------------------------
  // Decimal numbers

  function DigitChar(d: nat): (c: char)
    requires d < 10
    ensures IsDigit(c)
  {
    ('0' as int + d) as char
  }

  function DigitValue(c: char): (d: nat)
    requires IsDigit(c)
    ensures d < 10 && DigitChar(d) == c
  {
    c as int - '0' as int
  }

  predicate AllDigits(s: string) {
    forall i :: 0 <= i < |s| ==> IsDigit(s[i])
  }

  /** Shortest decimal text of `n`, as JavaScript's `String(n)` for an integer. */
  function NatToString(n: nat): (r: string)
    ensures 1 <= |r| && AllDigits(r)
    ensures |r| > 1 ==> r[0] != '0'
    ensures n < 10 <==> |r| == 1
    decreases n
  {
    if n < 10 then [DigitChar(n)] else NatToString(n / 10) + [DigitChar(n % 10)]
  }

  /** The number a digit string denotes. */
  function DigitsValue(s: string): nat
    requires AllDigits(s)
    decreases |s|
  {
    if s == [] then 0 else 10 * DigitsValue(s[..|s| - 1]) + DigitValue(s[|s| - 1])
  }

  /** Reading back the decimal text of a number gives the number. */
  lemma {:induction false} NatToStringRoundTrip(n: nat)
    ensures DigitsValue(NatToString(n)) == n
  {
    if n >= 10 {
      var s := NatToString(n);
      assert s[..|s| - 1] == NatToString(n / 10);
      NatToStringRoundTrip(n / 10);
    }
  }

  /** Two-digit numbers have at most two decimal digits. */
  lemma NatToStringShort(n: nat)
    requires n < 100
    ensures |NatToString(n)| <= 2
  {
    if n >= 10 {
      assert |NatToString(n / 10)| == 1;
    }
  }

  /** A string of one or more decimal digits, read as a number. */
  function ParseNat(s: string): (r: Option<nat>)
    ensures r.Some? <==> 1 <= |s| && AllDigits(s)
  {
    if 1 <= |s| && AllDigits(s) then Some(DigitsValue(s)) else None
  }

  lemma ParseNatToString(n: nat)
    ensures ParseNat(NatToString(n)) == Some(n)
  {
    NatToStringRoundTrip(n);
  }

  // ---------------------------------------------------------------------------
  // Padding and the m:ss clock text

  function Repeat(c: char, n: nat): (r: string)
    ensures |r| == n
    ensures forall i :: 0 <= i < n ==> r[i] == c
  {
    if n == 0 then [] else [c] + Repeat(c, n - 1)
  }

  /** `s.padStart(width, fill)` for a one-character fill. */
  function PadStart(s: string, width: nat, fill: char): (r: string)
    ensures |r| == if |s| >= width then |s| else width
    ensures r[|r| - |s|..] == s
    ensures forall i :: 0 <= i < |r| - |s| ==> r[i] == fill
  {
    if |s| >= width then s else Repeat(fill, width - |s|) + s
  }

  /** `${Math.floor(s / 60)}:${String(s % 60).padStart(2, '0')}`. */
  function Clock(seconds: nat): string {
    NatToString(seconds / 60) + ":" + PadStart(NatToString(seconds % 60), 2, '0')
  }

  /** Reference reading of an `m:ss` text: minutes, a colon, exactly two
      digits below 60. */
  function ParseClock(t: string): Option<nat> {
    match IndexOf(t, ":")
    case None => None
    case Some(i) =>
      var minutes := ParseNat(t[..i]);
      var secs := t[i + 1..];
      if minutes.Some? && |secs| == 2 && AllDigits(secs) && DigitsValue(secs) < 60
      then Some(60 * minutes.value + DigitsValue(secs))
      else None
  }

  /** The seconds field of the clock text is two digits denoting `n`. */
  lemma PaddedSeconds(n: nat)
    requires n < 60
    ensures var p := PadStart(NatToString(n), 2, '0');
            |p| == 2 && AllDigits(p) && DigitsValue(p) == n
  {
    NatToStringShort(n);
    NatToStringRoundTrip(n);
    var d := NatToString(n);
    var p := PadStart(d, 2, '0');
    if |d| == 1 {
      assert p == ['0'] + d;
      assert p[..1] == "0";
      assert DigitsValue(p) == DigitValue(d[0]);
    }
  }

  /** The reference parser reads minutes, a colon and two seconds digits. */
  lemma ParseClockOf(a: string, b: string, m: nat, r: nat)
    requires 1 <= |a| && AllDigits(a) && DigitsValue(a) == m
    requires |b| == 2 && AllDigits(b) && DigitsValue(b) == r && r < 60
    ensures ParseClock(a + ":" + b) == Some(60 * m + r)
  {
    var t := a + ":" + b;
    assert Avoids(a, ':') by {
      forall i | 0 <= i < |a| ensures a[i] != ':' { assert IsDigit(a[i]); }
    }
    IndexOfAfter(a, ':', b);
    assert t[..|a|] == a;
    assert t[|a| + 1..] == b;
  }

  /** The clock text determines the number of seconds: reading it back with
      the reference parser gives the input, so distinct durations show as
      distinct texts. */
  lemma ClockRoundTrip(seconds: nat)
    ensures ParseClock(Clock(seconds)) == Some(seconds)
  {
    var a, b, m, r := ClockParts(seconds);
    ParseClockOf(a, b, m, r);
  }

  /** The two fields of the clock text and the numbers their digits denote. */
  lemma ClockParts(seconds: nat) returns (a: string, b: string, m: nat, r: nat)
    ensures Clock(seconds) == a + ":" + b && seconds == 60 * m + r
    ensures 1 <= |a| && AllDigits(a) && DigitsValue(a) == m
    ensures |b| == 2 && AllDigits(b) && DigitsValue(b) == r && r < 60
  {
    m, r := seconds / 60, seconds % 60;
    a := NatToString(m);
    b := PadStart(NatToString(r), 2, '0');
    NatToStringRoundTrip(m);
    PaddedSeconds(r);
  }

  // ---------------------------------------------------------------------------
  // Numbers with one decimal place

  /** JavaScript's `String(t / 10)` for a whole number of tenths: no fraction
      part when the tenths digit is zero. */
  function TenthsToString(t: nat): string {
    NatToString(t / 10) + (if t % 10 == 0 then "" else "." + [DigitChar(t % 10)])
  }

  /** Reference reading of a decimal with at most one fractional digit, as
      `parseFloat` reads such a text, in tenths. */
  function ParseTenths(s: string): Option<nat> {
    match IndexOf(s, ".")
    case None =>
      if ParseNat(s).Some? then Some(10 * ParseNat(s).value) else None
    case Some(i) =>
      var whole := ParseNat(s[..i]);
      var frac := s[i + 1..];
      if whole.Some? && |frac| == 1 && IsDigit(frac[0])
      then Some(10 * whole.value + DigitValue(frac[0]))
      else None
  }

  /** Rendering a size in tenths and reading it back gives the same size. */
  lemma TenthsRoundTrip(t: nat)
    ensures ParseTenths(TenthsToString(t)) == Some(t)
  {
    var a := NatToString(t / 10);
    ParseNatToString(t / 10);
    assert Avoids(a, '.') by {
      forall i | 0 <= i < |a| ensures a[i] != '.' { assert IsDigit(a[i]); }
    }
    if t % 10 == 0 {
      assert TenthsToString(t) == a;
      forall j | 0 <= j ensures !StartsAt(a, j, ".") {
        if j < |a| { assert a[j] != '.'; }
      }
    } else {
      var b := [DigitChar(t % 10)];
      assert TenthsToString(t) == a + ['.'] + b;
      IndexOfAfter(a, '.', b);
      var s := TenthsToString(t);
      assert s[..|a|] == a;
      assert s[|a| + 1..] == b;
    }
  }

  // ---------------------------------------------------------------------------
  // Trimming

  predicate AllSpace(s: string) {
    forall i :: 0 <= i < |s| ==> IsJsSpace(s[i])
  }

  /** Number of leading white-space code units. */
  function LeadingSpace(s: string): (k: nat)
    ensures k <= |s| && AllSpace(s[..k])
    ensures k < |s| ==> !IsJsSpace(s[k])
  {
    if s == [] || !IsJsSpace(s[0]) then 0
    else
      var k := 1 + LeadingSpace(s[1..]);
      assert s[..k] == [s[0]] + s[1..][..k - 1];
      k
  }

  /** Number of trailing white-space code units. */
  function TrailingSpace(s: string): (k: nat)
    ensures k <= |s| && AllSpace(s[|s| - k..])
    ensures k < |s| ==> !IsJsSpace(s[|s| - k - 1])
  {
    if s == [] || !IsJsSpace(s[|s| - 1]) then 0
    else
      var p := s[..|s| - 1];
      var k := 1 + TrailingSpace(p);
      var w, v := s[|s| - k..], p[|p| - (k - 1)..];
      assert AllSpace(w) by {
        forall i | 0 <= i < |w| ensures IsJsSpace(w[i]) {
          if i < |v| {
            assert w[i] == v[i];
          }
        }
      }
      assert k < |s| ==> s[|s| - k - 1] == p[|p| - (k - 1) - 1];
      k
  }

  /** `s.trim()`: the input without its leading and trailing white space. */
  function Trim(s: string): string {
    var t := s[LeadingSpace(s)..];
    t[..|t| - TrailingSpace(t)]
  }

  /** White space on both sides of a concatenation. */
  lemma AllSpaceConcat(x: string, y: string)
    requires AllSpace(x) && AllSpace(y)
    ensures AllSpace(x + y)
  {
  }

  /** An input made only of white space is all leading white space. */
  lemma {:induction false} LeadingAllSpace(s: string)
    requires AllSpace(s)
    ensures LeadingSpace(s) == |s|
  {
    if s != [] {
      assert IsJsSpace(s[0]);
      assert AllSpace(s[1..]) by {
        forall i | 0 <= i < |s| - 1 ensures IsJsSpace(s[1..][i]) { assert s[1..][i] == s[i + 1]; }
      }
      LeadingAllSpace(s[1..]);
    }
  }

  /** `Trim` as the slice it takes: from the end of the leading white space,
      of length the rest minus its trailing white space. */
  lemma TrimSlice(s: string) returns (a: nat, b: nat)
    ensures a == LeadingSpace(s) && a + b <= |s|
    ensures Trim(s) == s[a..|s| - b]
    ensures AllSpace(s[..a]) && AllSpace(s[|s| - b..])
    ensures a < |s| - b ==> !IsJsSpace(s[a]) && !IsJsSpace(s[|s| - b - 1])
    ensures a >= |s| - b ==> a == |s|
  {
    a := LeadingSpace(s);
    var t := s[a..];
    b := TrailingSpace(t);
    assert Trim(s) == t[..|t| - b];
    assert t[..|t| - b] == s[a..|s| - b] && s[|s| - b..] == t[|t| - b..] by { MiddleSlices(s, a, b); }
    if b < |t| {
      assert t[|t| - b - 1] == s[|s| - b - 1];
      assert t[0] == s[a];
    } else {
      assert t[|t| - b..] == t;
      AllSpaceAfterLeading(s);
    }
  }

  /** Cutting `a` from the front and then `b` from the back is one slice. */
  lemma MiddleSlices(s: string, a: nat, b: nat)
    requires a + b <= |s|
    ensures s[a..][..|s| - a - b] == s[a..|s| - b]
    ensures s[|s| - b..] == s[a..][|s| - a - b..]
  {
  }

  /** An input whose text after its leading white space is all white space
      is all leading white space. */
  lemma AllSpaceAfterLeading(s: string)
    requires AllSpace(s[LeadingSpace(s)..])
    ensures LeadingSpace(s) == |s|
  {
    var a := LeadingSpace(s);
    assert s == s[..a] + s[a..];
    AllSpaceConcat(s[..a], s[a..]);
    LeadingAllSpace(s);
  }


  /** What `trim` keeps neither starts nor ends with white space, and it is
      empty exactly when the input is all white space. */
  lemma TrimProperties(s: string)
    ensures Trim(s) == [] <==> AllSpace(s)
    ensures Trim(s) != [] ==> !IsJsSpace(Trim(s)[0]) && !IsJsSpace(Trim(s)[|Trim(s)| - 1])
  {
    var a, b := TrimSlice(s);
    if AllSpace(s) {
      LeadingAllSpace(s);
    }
    if a < |s| - b {
      assert Trim(s)[0] == s[a];
      assert Trim(s)[|Trim(s)| - 1] == s[|s| - b - 1];
    } else {
      assert s[..a] == s;
    }
  }
}

/** Hand-written scanners for the regular expressions the system applies to
    URLs. A regular expression's `test` holds when some match exists; its
    `match` returns the leftmost match, trying the alternatives of a group in
    the order they are written. The `/i` flag is modelled by ASCII
    lower-casing of the input, the literals being written in lower case. */
module Patterns {
  import opened Wrappers
  import opened Text

  /** Length of a video identifier. */
  const IdLength: nat := 11

  /** Exactly eleven characters of `[A-Za-z0-9_-]`. */
  predicate IsVideoId(s: string) {
    |s| == IdLength && forall i :: 0 <= i < |s| ==> IsIdChar(s[i])
  }

  /** The input as the matcher compares it: lower-cased under `/i`. */
  function Fold(s: string, fold: bool): string {
    if fold then Lower(s) else s
  }

  function FoldChar(c: char, fold: bool): char {
    if fold then LowerChar(c) else c
  }

  /** The literal `lit` matches at index `i`. */
  predicate LiteralAt(s: string, i: nat, lit: string, fold: bool) {
    i + |lit| <= |s| && Fold(s[i..i + |lit|], fold) == lit
  }

  /** `n` characters of `[A-Za-z0-9_-]` (also `[\w-]`) start at index `i`. */
  predicate IdRunAt(s: string, i: nat, n: nat) {
    i + n <= |s| && forall k :: i <= k < i + n ==> IsIdChar(s[k])
  }

  /** Where a literal matches, each input character folds to the literal's. */
  lemma LiteralCharAt(s: string, i: nat, lit: string, fold: bool, d: nat)
    requires d < |lit| && LiteralAt(s, i, lit, fold)
    ensures FoldChar(s[i + d], fold) == lit[d]
  {
    assert Fold(s[i..i + |lit|], fold)[d] == FoldChar(s[i + d], fold);
  }

  /** A literal can only match where its first character is. */
  lemma LiteralFirstChar(s: string, i: nat, lit: string, fold: bool)
    requires |lit| > 0 && LiteralAt(s, i, lit, fold)
    ensures FoldChar(s[i], fold) == lit[0]
  {
    LiteralCharAt(s, i, lit, fold, 0);
  }

  /** A literal matched case-sensitively also matches under `/i` when it is
      written in lower case. */
  lemma LiteralFoldWeakens(s: string, i: nat, lit: string)
    requires Lower(lit) == lit
    requires LiteralAt(s, i, lit, false)
    ensures LiteralAt(s, i, lit, true)
  {
  }

  // ---------------------------------------------------------------------------
  // (?:alt0|alt1|...)([a-zA-Z0-9_-]{11}), the identifier-capturing pattern

  /** The group matched at index `i`: the first alternative, in written order,
      that is followed by eleven identifier characters; the capture is those
      eleven characters. */
  function CaptureAt(s: string, i: nat, alts: seq<string>, fold: bool): (r: Option<string>)
    ensures r.Some? ==> IsVideoId(r.value)
    ensures r.Some? <==> exists k :: 0 <= k < |alts| && LiteralAt(s, i, alts[k], fold)
                                     && IdRunAt(s, i + |alts[k]|, IdLength)
    decreases |alts|
  {
    if alts == [] then None
    else if LiteralAt(s, i, alts[0], fold) && IdRunAt(s, i + |alts[0]|, IdLength)
    then Some(s[i + |alts[0]|..i + |alts[0]| + IdLength])
    else
      var r := CaptureAt(s, i, alts[1..], fold);
      assert forall k :: 1 <= k < |alts| ==> alts[k] == alts[1..][k - 1];
      r
  }

  /** When alternative `k` matches at `i` and no earlier alternative's literal
      does, the capture is the eleven characters after alternative `k`. */
  lemma {:induction false} CaptureOfAlternative(s: string, i: nat, alts: seq<string>, fold: bool, k: nat)
    requires k < |alts|
    requires LiteralAt(s, i, alts[k], fold) && IdRunAt(s, i + |alts[k]|, IdLength)
    requires forall j :: 0 <= j < k ==> !LiteralAt(s, i, alts[j], fold)
    ensures CaptureAt(s, i, alts, fold) == Some(s[i + |alts[k]|..i + |alts[k]| + IdLength])
    decreases k
  {
    if k > 0 {
      assert forall j :: 0 <= j < k - 1 ==> alts[1..][j] == alts[j + 1];
      CaptureOfAlternative(s, i, alts[1..], fold, k - 1);
    }
  }

  /** A capture needs an alternative's first character at its start. */
  lemma NoCaptureAt(s: string, i: nat, alts: seq<string>, fold: bool, c: char)
    requires forall k :: 0 <= k < |alts| ==> |alts[k]| > 0 && alts[k][0] == c
    requires i < |s| ==> FoldChar(s[i], fold) != c
    ensures CaptureAt(s, i, alts, fold).None?
  {
    if CaptureAt(s, i, alts, fold).Some? {
      var k :| 0 <= k < |alts| && LiteralAt(s, i, alts[k], fold) && IdRunAt(s, i + |alts[k]|, IdLength);
      LiteralFirstChar(s, i, alts[k], fold);
    }
  }

  /** The leftmost index at or after `from` where the group and capture
      match, with the capture. */
  function SearchFrom(s: string, from: nat, alts: seq<string>, fold: bool): (r: Option<(nat, string)>)
    ensures r.Some? ==> from <= r.value.0 && CaptureAt(s, r.value.0, alts, fold) == Some(r.value.1)
    ensures r.Some? ==> forall j :: from <= j < r.value.0 ==> CaptureAt(s, j, alts, fold).None?
    ensures r.None? ==> forall j :: from <= j ==> CaptureAt(s, j, alts, fold).None?
    decreases |s| - from
  {
    if from > |s| then None
    else match CaptureAt(s, from, alts, fold)
      case Some(id) => Some((from, id))
      case None => SearchFrom(s, from + 1, alts, fold)
  }

  // ---------------------------------------------------------------------------
  // Ordered pattern lists whose first capture is a video identifier

  /** An identifier-extracting pattern: the identifier anywhere after one of
      the alternatives, or the whole input being an identifier
      (`^([a-zA-Z0-9_-]{11})$`). */
  datatype IdPattern =
    | Embedded(alternatives: seq<string>, fold: bool)
    | Whole(fold: bool)

  /** `url.match(pattern)[1]`, or nothing when there is no match. */
  function Apply(p: IdPattern, s: string): (r: Option<string>)
    ensures r.Some? ==> IsVideoId(r.value)
  {
    match p
    case Embedded(alts, fold) =>
      (match SearchFrom(s, 0, alts, fold)
       case Some(m) => Some(m.1)
       case None => None)
    case Whole(_) => if IsVideoId(s) then Some(s) else None
  }

  /** The capture of the first pattern in the list that matches. */
  function FirstMatch(ps: seq<IdPattern>, s: string): (r: Option<string>)
    ensures r.Some? ==> IsVideoId(r.value)
    ensures r.Some? ==> exists k :: 0 <= k < |ps| && Apply(ps[k], s) == r
                                    && forall j :: 0 <= j < k ==> Apply(ps[j], s).None?
    ensures r.None? <==> forall k :: 0 <= k < |ps| ==> Apply(ps[k], s).None?
    decreases |ps|
  {
    if ps == [] then None
    else if Apply(ps[0], s).Some? then Apply(ps[0], s)
    else
      var r := FirstMatch(ps[1..], s);
      assert forall k :: 1 <= k < |ps| ==> ps[k] == ps[1..][k - 1];
      assert r.Some? ==> exists k :: 0 <= k < |ps| && Apply(ps[k], s) == r
                                     && forall j :: 0 <= j < k ==> Apply(ps[j], s).None? by {
        if r.Some? {
          var k :| 0 <= k < |ps[1..]| && Apply(ps[1..][k], s) == r
                   && forall j :: 0 <= j < k ==> Apply(ps[1..][j], s).None?;
          assert Apply(ps[k + 1], s) == r;
        }
      }
      r
  }

  /** The loop of `extractVideoId`: try each pattern in turn and return the
      first capture found, or nothing after the last pattern. */
  method ExtractFirst(ps: seq<IdPattern>, s: string) returns (r: Option<string>)
    ensures r == FirstMatch(ps, s)
    ensures r.Some? ==> IsVideoId(r.value)
  {
    var i := 0;
    while i < |ps|
      invariant 0 <= i <= |ps|
      invariant FirstMatch(ps[i..], s) == FirstMatch(ps, s)
    {
      var m := Apply(ps[i], s);
      if m.Some? {
        return m;
      }
      assert ps[i..][1..] == ps[i + 1..];
      i := i + 1;
    }
    return None;
  }

  /** The identifier-capturing pattern finds the identifier after alternative
      `k` at index `i` when nothing matches earlier in the input and no earlier
      alternative's literal also matches at `i`. */
  lemma EmbeddedLeftmost(s: string, i: nat, alts: seq<string>, fold: bool, k: nat)
    requires k < |alts|
    requires LiteralAt(s, i, alts[k], fold) && IdRunAt(s, i + |alts[k]|, IdLength)
    requires forall j :: 0 <= j < k ==> !LiteralAt(s, i, alts[j], fold)
    requires forall j :: 0 <= j < i ==> CaptureAt(s, j, alts, fold).None?
    ensures Apply(Embedded(alts, fold), s) == Some(s[i + |alts[k]|..i + |alts[k]| + IdLength])
  {
    CaptureOfAlternative(s, i, alts, fold, k);
    var r := SearchFrom(s, 0, alts, fold);
    assert r.Some? && r.value.0 == i;
  }

  /** No alternative of length one or more can be followed by eleven
      identifier characters inside an input of at most eleven characters. */
  lemma NoEmbeddedInShort(s: string, alts: seq<string>, fold: bool)
    requires |s| <= IdLength
    requires forall k :: 0 <= k < |alts| ==> |alts[k]| > 0
    ensures Apply(Embedded(alts, fold), s).None?
  {
  }

  /** The identifier-capturing pattern never matches an input in which no
      character folds to the alternatives' common first character. */
  lemma NoEmbeddedWithout(s: string, alts: seq<string>, fold: bool, c: char)
    requires forall k :: 0 <= k < |alts| ==> |alts[k]| > 0 && alts[k][0] == c
    requires forall i :: 0 <= i < |s| ==> FoldChar(s[i], fold) != c
    ensures Apply(Embedded(alts, fold), s).None?
  {
    forall j | 0 <= j ensures CaptureAt(s, j, alts, fold).None? {
      NoCaptureAt(s, j, alts, fold, c);
    }
  }

  // ---------------------------------------------------------------------------
  // The five URL shapes in front of an identifier

  /** `youtube\.com\/watch\?v=|youtu\.be\/|youtube\.com\/embed\/|youtube\.com\/v\/|youtube\.com\/shorts\/` */
  const UrlPrefixes: seq<string> :=
    ["youtube.com/watch?v=", "youtu.be/", "youtube.com/embed/", "youtube.com/v/", "youtube.com/shorts/"]

  /** Every URL prefix starts with `y`. */
  lemma UrlPrefixesStartWithY()
    ensures forall k :: 0 <= k < |UrlPrefixes| ==> |UrlPrefixes[k]| > 0 && UrlPrefixes[k][0] == 'y'
  {
  }

  /** No two URL prefixes match at the same index, with or without `/i`:
      they differ at index 5 (`youtu.be/`) or at index 12. */
  lemma UrlPrefixesExclusive(s: string, i: nat, fold: bool, j: nat, k: nat)
    requires j < k < |UrlPrefixes|
    ensures !(LiteralAt(s, i, UrlPrefixes[j], fold) && LiteralAt(s, i, UrlPrefixes[k], fold))
  {
    var d := if j == 1 || k == 1 then 5 else 12;
    assert d < |UrlPrefixes[j]| && d < |UrlPrefixes[k]| && UrlPrefixes[j][d] != UrlPrefixes[k][d];
    if LiteralAt(s, i, UrlPrefixes[j], fold) && LiteralAt(s, i, UrlPrefixes[k], fold) {
      LiteralCharAt(s, i, UrlPrefixes[j], fold, d);
      LiteralCharAt(s, i, UrlPrefixes[k], fold, d);
    }
  }

  /** The identifier-capturing pattern over the URL prefixes returns the
      eleven identifier characters after the leftmost matching prefix; any
      characters after them are ignored. */
  lemma UrlPrefixedId(s: string, i: nat, k: nat, fold: bool)
    requires k < |UrlPrefixes|
    requires LiteralAt(s, i, UrlPrefixes[k], fold) && IdRunAt(s, i + |UrlPrefixes[k]|, IdLength)
    requires forall j :: 0 <= j < i ==> CaptureAt(s, j, UrlPrefixes, fold).None?
    ensures Apply(Embedded(UrlPrefixes, fold), s)
            == Some(s[i + |UrlPrefixes[k]|..i + |UrlPrefixes[k]| + IdLength])
  {
    assert Apply(Embedded(UrlPrefixes, fold), s) == Some(s[i + |UrlPrefixes[k]|..i + |UrlPrefixes[k]| + IdLength]) by {
      EarlierPrefixesFail(s, i, fold, k);
      EmbeddedLeftmost(s, i, UrlPrefixes, fold, k);
    }
  }

  /** When prefix `k` matches at `i`, no earlier prefix does. */
  lemma EarlierPrefixesFail(s: string, i: nat, fold: bool, k: nat)
    requires k < |UrlPrefixes| && LiteralAt(s, i, UrlPrefixes[k], fold)
    ensures forall j :: 0 <= j < k ==> !LiteralAt(s, i, UrlPrefixes[j], fold)
  {
    forall j | 0 <= j < k ensures !LiteralAt(s, i, UrlPrefixes[j], fold) {
      UrlPrefixesExclusive(s, i, fold, j, k);
    }
  }

  /** No capture starts inside a stretch of the input without `y` (under
      `/i`, without `y` or `Y`). */
  lemma NoCaptureWithoutY(s: string, n: nat, fold: bool)
    requires n <= |s|
    requires forall i :: 0 <= i < n ==> FoldChar(s[i], fold) != 'y'
    ensures forall j :: 0 <= j < n ==> CaptureAt(s, j, UrlPrefixes, fold).None?
  {
    UrlPrefixesStartWithY();
    forall j | 0 <= j < n ensures CaptureAt(s, j, UrlPrefixes, fold).None? {
      NoCaptureAt(s, j, UrlPrefixes, fold, 'y');
    }
  }

  // ---------------------------------------------------------------------------
  // URL-shape patterns used only with `test`

  const Schemes: seq<string> := ["https://", "http://", ""]
  const WwwParts: seq<string> := ["www.", ""]
  const Hosts: seq<string> := ["youtube.com", "youtu.be"]

  /** `head` starts the input and is followed by one character other than a
      line terminator (the `.+` after it needs only one). */
  predicate HeadThenPath(s: string, head: string, fold: bool) {
    LiteralAt(s, 0, head, fold) && |head| < |s| && !IsLineTerminator(s[|head|])
  }

  /** A URL-shape pattern. */
  datatype UrlPattern =
    /** `^(https?:\/\/)?(www\.)?(youtube\.com|youtu\.be)\/.+` */
    | HostPath(fold: bool)
    /** `lit[\w-]{count}` anywhere; `lit[\w-]+` is the case `count == 1`. */
    | LiteralThenIds(lit: string, count: nat, fold: bool)
    /** `lit.*marker[\w-]{count}` anywhere. */
    | LiteralGapThenIds(lit: string, marker: string, count: nat, fold: bool)

  predicate NoLineTerminator(s: string) {
    forall i :: 0 <= i < |s| ==> !IsLineTerminator(s[i])
  }

  /** `pattern.test(s)`. */
  predicate Test(p: UrlPattern, s: string) {
    match p
    case HostPath(fold) =>
      exists a, w, h | 0 <= a < |Schemes| && 0 <= w < |WwwParts| && 0 <= h < |Hosts| ::
        HeadThenPath(s, Schemes[a] + WwwParts[w] + Hosts[h] + "/", fold)
    case LiteralThenIds(lit, count, fold) =>
      exists i | 0 <= i <= |s| :: LiteralAt(s, i, lit, fold) && IdRunAt(s, i + |lit|, count)
    case LiteralGapThenIds(lit, marker, count, fold) =>
      exists i, j | 0 <= i && i + |lit| <= j <= |s| ::
        LiteralAt(s, i, lit, fold) && NoLineTerminator(s[i + |lit|..j])
        && LiteralAt(s, j, marker, fold) && IdRunAt(s, j + |marker|, count)
  }

  /** `patterns.some(pattern => pattern.test(s))`. */
  predicate AnyTest(ps: seq<UrlPattern>, s: string) {
    exists k | 0 <= k < |ps| :: Test(ps[k], s)
  }

  /** Every host-path head starts with `h`, `w` or `y`. */
  lemma HeadFirstChars(a: nat, w: nat, h: nat)
    requires a < |Schemes| && w < |WwwParts| && h < |Hosts|
    ensures var head := Schemes[a] + WwwParts[w] + Hosts[h] + "/";
            |head| > 0 && head[0] in {'h', 'w', 'y'}
  {
  }

  /** The host-path pattern rejects an input whose first character does not
      fold to `h`, `w` or `y`. */
  lemma HostPathNeedsFirstChar(s: string, fold: bool)
    requires s == [] || FoldChar(s[0], fold) !in {'h', 'w', 'y'}
    ensures !Test(HostPath(fold), s)
  {
    if Test(HostPath(fold), s) {
      var a, w, h :| 0 <= a < |Schemes| && 0 <= w < |WwwParts| && 0 <= h < |Hosts|
                     && HeadThenPath(s, Schemes[a] + WwwParts[w] + Hosts[h] + "/", fold);
      HeadFirstChars(a, w, h);
      LiteralFirstChar(s, 0, Schemes[a] + WwwParts[w] + Hosts[h] + "/", fold);
    }
  }

  /** The literal-then-identifier pattern rejects an input in which no
      character folds to the literal's first character. */
  lemma LiteralThenIdsNeedsChar(s: string, lit: string, count: nat, fold: bool)
    requires |lit| > 0
    requires forall i :: 0 <= i < |s| ==> FoldChar(s[i], fold) != lit[0]
    ensures !Test(LiteralThenIds(lit, count, fold), s)
  {
    if Test(LiteralThenIds(lit, count, fold), s) {
      var i :| 0 <= i <= |s| && LiteralAt(s, i, lit, fold) && IdRunAt(s, i + |lit|, count);
      LiteralFirstChar(s, i, lit, fold);
    }
  }

  /** The same for the pattern with a gap. */
  lemma LiteralGapNeedsChar(s: string, lit: string, marker: string, count: nat, fold: bool)
    requires |lit| > 0
    requires forall i :: 0 <= i < |s| ==> FoldChar(s[i], fold) != lit[0]
    ensures !Test(LiteralGapThenIds(lit, marker, count, fold), s)
  {
    if Test(LiteralGapThenIds(lit, marker, count, fold), s) {
      var i, j :| 0 <= i && i + |lit| <= j <= |s| && LiteralAt(s, i, lit, fold)
                  && LiteralAt(s, j, marker, fold);
      LiteralFirstChar(s, i, lit, fold);
    }
  }

  // ---------------------------------------------------------------------------
  // Acceptance and rejection by the URL-shape patterns

  /** Part of a matched literal matches at the corresponding index. */
  lemma LiteralPart(s: string, i: nat, lit: string, fold: bool, d: nat, sub: string)
    requires LiteralAt(s, i, lit, fold)
    requires d + |sub| <= |lit| && lit[d..d + |sub|] == sub
    ensures LiteralAt(s, i + d, sub, fold)
  {
    var w := s[i..i + |lit|];
    var v := s[i + d..i + d + |sub|];
    assert Fold(w, fold) == lit;
    forall k | 0 <= k < |sub| ensures Fold(v, fold)[k] == sub[k] {
      assert v[k] == w[d + k];
      assert sub[k] == lit[d + k];
    }
  }

  /** A literal matched at some index is an occurrence in the folded input. */
  lemma LiteralContained(s: string, i: nat, lit: string, fold: bool)
    requires LiteralAt(s, i, lit, fold)
    ensures Contains(Fold(s, fold), lit)
  {
    if fold {
      LowerSlice(s, i, i + |lit|);
    }
    OccurrenceContains(Fold(s, fold), i, lit);
  }

  /** The host-path pattern accepts every input that starts with one of its
      heads (under `/i`, in any case) followed by a character other than a
      line terminator. */
  lemma HostPathAccepts(s: string, fold: bool, a: nat, w: nat, h: nat)
    requires a < |Schemes| && w < |WwwParts| && h < |Hosts|
    requires HeadThenPath(s, Schemes[a] + WwwParts[w] + Hosts[h] + "/", fold)
    ensures Test(HostPath(fold), s)
  {
  }

  /** The literal-then-identifier pattern accepts the literal followed by
      `count` identifier characters anywhere in the input. */
  lemma LiteralThenIdsAccepts(p: string, lit: string, ids: string, z: string, fold: bool)
    requires Fold(lit, fold) == lit
    requires forall k :: 0 <= k < |ids| ==> IsIdChar(ids[k])
    ensures Test(LiteralThenIds(lit, |ids|, fold), p + lit + ids + z)
  {
    var s := p + lit + ids + z;
    assert s[|p|..|p| + |lit|] == lit;
    assert forall k :: |p| + |lit| <= k < |p| + |lit| + |ids| ==> s[k] == ids[k - |p| - |lit|];
    assert LiteralAt(s, |p|, lit, fold) && IdRunAt(s, |p| + |lit|, |ids|);
  }

  /** An input shorter than the literal and the identifier run is rejected. */
  lemma LiteralThenIdsTooShort(s: string, lit: string, count: nat, fold: bool)
    requires |s| < |lit| + count
    ensures !Test(LiteralThenIds(lit, count, fold), s)
  {
  }

  /** The same for the pattern with a gap. */
  lemma LiteralGapTooShort(s: string, lit: string, marker: string, count: nat, fold: bool)
    requires |s| < |lit| + |marker| + count
    ensures !Test(LiteralGapThenIds(lit, marker, count, fold), s)
  {
  }

  /** Every host-path head holds `youtu` after its scheme and `www.` part. */
  lemma HeadHoldsYoutu(a: nat, w: nat, h: nat)
    requires a < |Schemes| && w < |WwwParts| && h < |Hosts|
    ensures var head := Schemes[a] + WwwParts[w] + Hosts[h] + "/";
            var d := |Schemes[a]| + |WwwParts[w]|;
            d + 5 <= |head| && head[d..d + 5] == "youtu"
  {
    var head := Schemes[a] + WwwParts[w] + Hosts[h] + "/";
    var d := |Schemes[a]| + |WwwParts[w]|;
    assert head[d..d + 5] == Hosts[h][..5];
  }

  /** A pattern whose every literal route passes through `youtu`: the
      host-path pattern, or one whose first literal starts with `youtu`. */
  predicate MentionsYoutu(p: UrlPattern) {
    match p
    case HostPath(_) => true
    case LiteralThenIds(lit, _, _) => |lit| >= 5 && lit[..5] == "youtu"
    case LiteralGapThenIds(lit, _, _, _) => |lit| >= 5 && lit[..5] == "youtu"
  }

  /** Such a pattern only accepts inputs in which `youtu` occurs (after
      lower-casing under `/i`). */
  lemma TestNeedsYoutu(p: UrlPattern, s: string)
    requires MentionsYoutu(p)
    ensures Test(p, s) ==> Contains(Fold(s, p.fold), "youtu")
  {
    if Test(p, s) {
      match p
      case HostPath(fold) => HostPathNeedsYoutu(s, fold);
      case LiteralThenIds(lit, count, fold) =>
        var i :| 0 <= i <= |s| && LiteralAt(s, i, lit, fold) && IdRunAt(s, i + |lit|, count);
        LiteralNeedsYoutu(s, i, lit, fold);
      case LiteralGapThenIds(lit, marker, count, fold) =>
        var i, j :| 0 <= i && i + |lit| <= j <= |s| && LiteralAt(s, i, lit, fold)
                    && NoLineTerminator(s[i + |lit|..j])
                    && LiteralAt(s, j, marker, fold) && IdRunAt(s, j + |marker|, count);
        LiteralNeedsYoutu(s, i, lit, fold);
    }
  }

  lemma HostPathNeedsYoutu(s: string, fold: bool)
    requires Test(HostPath(fold), s)
    ensures Contains(Fold(s, fold), "youtu")
  {
    var a, w, h :| 0 <= a < |Schemes| && 0 <= w < |WwwParts| && 0 <= h < |Hosts|
                   && HeadThenPath(s, Schemes[a] + WwwParts[w] + Hosts[h] + "/", fold);
    var head := Schemes[a] + WwwParts[w] + Hosts[h] + "/";
    HeadHoldsYoutu(a, w, h);
    LiteralPart(s, 0, head, fold, |Schemes[a]| + |WwwParts[w]|, "youtu");
    LiteralContained(s, |Schemes[a]| + |WwwParts[w]|, "youtu", fold);
  }

  lemma LiteralNeedsYoutu(s: string, i: nat, lit: string, fold: bool)
    requires |lit| >= 5 && lit[..5] == "youtu" && LiteralAt(s, i, lit, fold)
    ensures Contains(Fold(s, fold), "youtu")
  {
    LiteralPart(s, i, lit, fold, 0, "youtu");
    LiteralContained(s, i, "youtu", fold);
  }

  /** A list of such patterns, all with the same `/i` flag, accepts only
      inputs in which `youtu` occurs. */
  lemma AnyTestNeedsYoutu(ps: seq<UrlPattern>, s: string, fold: bool)
    requires forall k :: 0 <= k < |ps| ==> MentionsYoutu(ps[k]) && ps[k].fold == fold
    ensures AnyTest(ps, s) ==> Contains(Fold(s, fold), "youtu")
  {
    if AnyTest(ps, s) {
      var k :| 0 <= k < |ps| && Test(ps[k], s);
      TestNeedsYoutu(ps[k], s);
    }
  }

  /** A text in which some character of `k` never occurs does not contain `k`. */
  lemma MissingCharNotContained(s: string, k: string, d: nat)
    requires d < |k| && Avoids(s, k[d])
    ensures !Contains(s, k)
  {
    forall i: nat | i + |k| <= |s| ensures !StartsAt(s, i, k) {
      assert s[i..i + |k|][d] == s[i + d] != k[d];
    }
    ContainsIff(s, k);
  }

  // ---------------------------------------------------------------------------
  // Case folding on lower-case input

  /** On lower-case input a literal written in lower case matches with `/i`
      exactly where it matches without. */
  lemma LiteralFoldOnLower(s: string, i: nat, lit: string)
    requires Lower(s) == s
    ensures LiteralAt(s, i, lit, true) == LiteralAt(s, i, lit, false)
  {
    if i + |lit| <= |s| {
      LowerSlice(s, i, i + |lit|);
    }
  }

  lemma {:induction false} CaptureFoldOnLower(s: string, i: nat, alts: seq<string>)
    requires Lower(s) == s
    ensures CaptureAt(s, i, alts, true) == CaptureAt(s, i, alts, false)
    decreases |alts|
  {
    if alts != [] {
      LiteralFoldOnLower(s, i, alts[0]);
      CaptureFoldOnLower(s, i, alts[1..]);
    }
  }

  lemma {:induction false} SearchFoldOnLower(s: string, from: nat, alts: seq<string>)
    requires Lower(s) == s
    ensures SearchFrom(s, from, alts, true) == SearchFrom(s, from, alts, false)
    decreases |s| - from
  {
    if from <= |s| {
      CaptureFoldOnLower(s, from, alts);
      SearchFoldOnLower(s, from + 1, alts);
    }
  }

  /** The identifier-capturing pattern gives the same capture with and
      without `/i` on lower-case input. */
  lemma FoldIrrelevantOnLower(s: string, alts: seq<string>)
    requires Lower(s) == s
    ensures Apply(Embedded(alts, true), s) == Apply(Embedded(alts, false), s)
  {
    SearchFoldOnLower(s, 0, alts);
  }
}

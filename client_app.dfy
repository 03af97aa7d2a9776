/** The page script `public/script.js` (class `VYTDownloader`), the client of
    the edge function of `api/download/route.js`. The object's own fields
    are the fields of a class; the page elements it writes are one `Page`
    value that its methods replace. The edge function is reached through
    `EdgeApi.Handle`; whether the request gets through at all, and what the
    browser's `URL` parser makes of the input, are inputs. */
module ClientApp {
  import opened Wrappers
  import opened Text
  import opened Patterns
  import EdgeApi
  // only for the lemma that compares this page's URL check with the older page's
  import LegacyClient

  // ---------------------------------------------------------------------------
  // URL validation: `isValidYouTubeUrl`, seven patterns, all with `/i`

  const ValidityPatterns: seq<UrlPattern> := [
    HostPath(true),
    LiteralThenIds("youtube.com/watch?v=", IdLength, true),
    LiteralThenIds("youtu.be/", IdLength, true),
    LiteralThenIds("youtube.com/embed/", IdLength, true),
    LiteralThenIds("youtube.com/shorts/", IdLength, true),
    LiteralThenIds("youtube.com/v/", IdLength, true),
    LiteralGapThenIds("youtube.com/playlist?", "v=", IdLength, true)
  ]

  predicate IsValidYouTubeUrl(url: string) {
    AnyTest(ValidityPatterns, url)
  }

  /** Any input that starts like a YouTube address, in any case, and has a
      path is valid. */
  lemma AcceptsHostPath(url: string, a: nat, w: nat, h: nat)
    requires a < |Schemes| && w < |WwwParts| && h < |Hosts|
    requires HeadThenPath(url, Schemes[a] + WwwParts[w] + Hosts[h] + "/", true)
    ensures IsValidYouTubeUrl(url)
  {
    HostPathAccepts(url, true, a, w, h);
    assert Test(ValidityPatterns[0], url);
  }

  /** Which validity pattern checks each identifier-extracting URL prefix. */
  const PrefixPattern: seq<nat> := [1, 2, 3, 5, 4]

  /** One of the five URL prefixes followed by a video identifier, anywhere
      in the text, is valid. */
  lemma AcceptsPrefixedId(p: string, k: nat, id: string, z: string)
    requires k < |UrlPrefixes| && IsVideoId(id)
    ensures IsValidYouTubeUrl(p + UrlPrefixes[k] + id + z)
  {
    var lit := UrlPrefixes[k];
    assert Lower(lit) == lit;
    assert ValidityPatterns[PrefixPattern[k]] == LiteralThenIds(lit, IdLength, true);
    LiteralThenIdsAccepts(p, lit, id, z, true);
    assert Test(ValidityPatterns[PrefixPattern[k]], p + lit + id + z);
  }

  /** A capitalised short link is valid here, unlike in `script.js`. */
  lemma AcceptsUpperCase()
    ensures IsValidYouTubeUrl("HTTPS://YOUTU.BE/dQw4w9WgXcQ")
  {
    var url := "HTTPS://YOUTU.BE/dQw4w9WgXcQ";
    var head := Schemes[0] + WwwParts[1] + Hosts[1] + "/";
    assert head == "https://youtu.be/";
    assert Lower(url[..17]) == head;
    AcceptsHostPath(url, 0, 1, 1);
  }

  /** A valid input contains `youtu` in some case. */
  lemma ValidMentionsYoutu(url: string)
    ensures IsValidYouTubeUrl(url) ==> Contains(Lower(url), "youtu")
  {
    forall k | 1 <= k < 6 ensures ValidityPatterns[k].lit[..5] == "youtu" { }
    assert "youtube.com/playlist?"[..5] == "youtu";
    assert forall k :: 0 <= k < |ValidityPatterns| ==>
      MentionsYoutu(ValidityPatterns[k]) && ValidityPatterns[k].fold;
    AnyTestNeedsYoutu(ValidityPatterns, url, true);
  }

  /** A short link with a one-character identifier is refused here: every
      pattern but the first wants eleven identifier characters. */
  lemma RejectsShortIdentifier()
    ensures !IsValidYouTubeUrl("see youtu.be/a")
  {
    var url := "see youtu.be/a";
    HostPathNeedsFirstChar(url, true);
    forall k | 1 <= k < 6 ensures !Test(ValidityPatterns[k], url) {
      LiteralThenIdsTooShort(url, ValidityPatterns[k].lit, IdLength, true);
    }
    LiteralGapTooShort(url, "youtube.com/playlist?", "v=", IdLength, true);
  }

  /** The two pages' checks disagree in both directions. */
  lemma ValidityDiffersFromLegacy()
    ensures LegacyClient.IsValidYouTubeUrl("see youtu.be/a") && !IsValidYouTubeUrl("see youtu.be/a")
    ensures IsValidYouTubeUrl("HTTPS://YOUTU.BE/dQw4w9WgXcQ")
            && !LegacyClient.IsValidYouTubeUrl("HTTPS://YOUTU.BE/dQw4w9WgXcQ")
  {
    assert "see youtu.be/a" == "see " + "youtu.be/" + ['a'] + "";
    LegacyClient.AcceptsShortLinkAnywhere("see ", 'a', "");
    RejectsShortIdentifier();
    AcceptsUpperCase();
    LegacyClient.RejectsUpperCase();
  }

  // ---------------------------------------------------------------------------
  // Identifier extraction: `extractVideoId`

  /** The regular-expression stage: the five URL prefixes, then the whole
      input, both with `/i`. */
  const IdPatterns: seq<IdPattern> := [Embedded(UrlPrefixes, true), Whole(true)]

  /** What `new URL(url)` gives: it throws, or it has a host name, a `v`
      search parameter (missing or not) and a path. */
  datatype UrlObject = Unparsable | Parsed(hostname: string, v: Option<string>, pathname: string)

  datatype Extraction = Found(id: string) | NotFound | Threw

  /** `pathname.split('/').pop()`: the text after the last `/`. */
  function LastSegment(path: string): (r: string)
    ensures |r| <= |path| && r == path[|path| - |r|..]
    ensures '/' !in r
    ensures |r| < |path| ==> path[|path| - |r| - 1] == '/'
  {
    if path == [] || path[|path| - 1] == '/' then []
    else LastSegment(path[..|path| - 1]) + [path[|path| - 1]]
  }

  /** The stage after the regular expressions: on a YouTube host, the `v`
      parameter when it is non-empty, else a last path segment of eleven
      characters. Neither is checked to be made of identifier characters. */
  function UrlStage(u: UrlObject): Extraction {
    match u
    case Unparsable => Threw
    case Parsed(hostname, v, pathname) =>
      if Contains(hostname, "youtube") || Contains(hostname, "youtu.be") then
        if Truthy(v) then Found(v.value)
        else if |LastSegment(pathname)| == IdLength then Found(LastSegment(pathname))
        else NotFound
      else NotFound
  }

  /** `extractVideoId(url)`: the loop over the two patterns with early return,
      then the `URL` stage. */
  method ExtractVideoId(url: string, u: UrlObject) returns (r: Extraction)
    ensures FirstMatch(IdPatterns, url).Some? ==>
              r == Found(FirstMatch(IdPatterns, url).value) && IsVideoId(r.id)
    ensures FirstMatch(IdPatterns, url).None? ==> r == UrlStage(u)
  {
    var m := ExtractFirst(IdPatterns, url);
    if m.Some? {
      return Found(m.value);
    }
    r := UrlStage(u);
  }

  /** Any capitalisation of a URL prefix followed by an identifier yields the
      identifier, when no `y` or `Y` comes before the prefix. */
  lemma ExtractAnyCase(p: string, q: string, k: nat, id: string, z: string)
    requires k < |UrlPrefixes| && Lower(q) == UrlPrefixes[k] && IsVideoId(id)
    requires forall i :: 0 <= i < |p| ==> LowerChar(p[i]) != 'y'
    ensures FirstMatch(IdPatterns, p + q + id + z) == Some(id)
  {
    var s := p + q + id + z;
    assert s[|p|..|p| + |q|] == q;
    assert s[|p| + |q|..|p| + |q| + IdLength] == id;
    assert LiteralAt(s, |p|, UrlPrefixes[k], true);
    assert IdRunAt(s, |p| + |q|, IdLength) by {
      forall i | |p| + |q| <= i < |p| + |q| + IdLength ensures IsIdChar(s[i]) {
        assert s[i] == id[i - |p| - |q|];
      }
    }
    NoCaptureWithoutY(s, |p|, true);
    UrlPrefixedId(s, |p|, k, true);
  }

  /** On lower-case input the regular-expression stage agrees with the edge
      function's case-sensitive extraction. */
  lemma AgreesWithEdgeOnLowerCase(url: string)
    requires Lower(url) == url
    ensures FirstMatch(IdPatterns, url) == EdgeApi.ExtractVideoId(url)
  {
    FoldIrrelevantOnLower(url, UrlPrefixes);
    assert EdgeApi.IdPatterns == [Embedded(UrlPrefixes, false), Whole(false)];
    assert IdPatterns[1..] == [Whole(true)];
    assert EdgeApi.IdPatterns[1..] == [Whole(false)];
  }

  /** On a capitalised short link they differ: the edge function finds
      nothing, the page finds the identifier. */
  lemma DiffersFromEdgeOnUpperCase()
    ensures FirstMatch(IdPatterns, "YOUTU.BE/dQw4w9WgXcQ") == Some("dQw4w9WgXcQ")
    ensures EdgeApi.ExtractVideoId("YOUTU.BE/dQw4w9WgXcQ").None?
  {
    assert "YOUTU.BE/dQw4w9WgXcQ" == "" + "YOUTU.BE/" + "dQw4w9WgXcQ" + "";
    assert Lower("YOUTU.BE/") == UrlPrefixes[1];
    assert IsVideoId("dQw4w9WgXcQ");
    ExtractAnyCase("", "YOUTU.BE/", 1, "dQw4w9WgXcQ", "");
    EdgeApi.ExtractRejectsUpperCaseHost();
  }

  /** The `URL` stage takes any non-empty `v` parameter, identifier or not. */
  lemma UrlStageTakesAnyParameter(hostname: string, v: string, pathname: string)
    requires Contains(hostname, "youtube") && v != ""
    ensures UrlStage(Parsed(hostname, Some(v), pathname)) == Found(v)
  {
  }

  // ---------------------------------------------------------------------------
  // Format records and the static catalogues

  /** A format object as the page uses it. `kind` is its `type`; a missing
      `service` is `None`; a missing flag is false. */
  datatype ClientFormat = ClientFormat(
    kind: string, quality: string, resolution: string, size: string, url: string,
    container: string, hasAudio: bool, bitrate: string, icon: string, color: string,
    service: Option<string>, reliable: bool, tested: bool, isMusic: bool)

  /** A format of the edge function's catalogue, as the page receives it. */
  function FromEdge(f: EdgeApi.Format): ClientFormat {
    ClientFormat(if f.kind == EdgeApi.Video then "video" else "audio", f.quality, f.resolution, f.size,
                 f.url, f.container, f.hasAudio, f.bitrate, f.icon, f.color, None, false, false, false)
  }

  function WorkingVideo(quality: string, resolution: string, size: string, url: string,
                        bitrate: string, service: string): ClientFormat {
    ClientFormat("video", quality, resolution, size, url, "mp4", true, bitrate,
                 "fas fa-video", "video", Some(service), true, true, false)
  }

  function WorkingAudio(quality: string, size: string, url: string, bitrate: string,
                        service: string): ClientFormat {
    ClientFormat("audio", quality, "Audio", size, url, "mp3", true, bitrate,
                 "fas fa-music", "audio", Some(service), true, true, true)
  }

  const Y2MateUrl := "https://www.y2mate.com/youtube/"
  const YT5sUrl := "https://yt5s.com/en?q=https://youtube.com/watch?v="
  const OnlineVideoConverterUrl := "https://www.onlinevideoconverter.com/youtube-converter?id="
  const SaveFromUrl := "https://en.savefrom.net/download-from-youtube/?url=https://youtube.com/watch?v="

  /** `generateWorkingFormats(videoId)`: the eight entries of its array
      literal, in order. */
  function GenerateWorkingFormats(videoId: string): (fs: seq<ClientFormat>)
    ensures |fs| == 8
    ensures forall i :: 0 <= i < 8 ==> fs[i] == WorkingFormat(i, videoId)
  {
    seq(8, i requires 0 <= i < 8 => WorkingFormat(i, videoId))
  }

  /** Entry `i` of the working catalogue. */
  function WorkingFormat(i: nat, videoId: string): ClientFormat
    requires i < 8
  {
    match i
    case 0 => WorkingVideo("1080p Full HD", "1080p", "45 MB", Y2MateUrl + videoId, "4 Mbps", "Y2Mate")
    case 1 => WorkingVideo("720p HD", "720p", "25 MB", YT5sUrl + videoId, "2 Mbps", "YT5s")
    case 2 => WorkingVideo("480p SD", "480p", "15 MB", OnlineVideoConverterUrl + videoId, "1 Mbps", "OnlineConverter")
    case 3 => WorkingVideo("360p Mobile", "360p", "8 MB", SaveFromUrl + videoId, "0.5 Mbps", "SaveFrom")
    case 4 => WorkingAudio("MP3 320kbps", "12 MB", "https://www.y2mate.com/youtube-mp3/" + videoId, "320 kbps", "Y2Mate MP3")
    case 5 => WorkingAudio("MP3 256kbps", "10 MB", "https://ytmp3.nu/" + videoId, "256 kbps", "YTMP3")
    case 6 => WorkingAudio("MP3 192kbps", "8 MB", "https://ymp3.download/en?url=https://youtube.com/watch?v=" + videoId,
                           "192 kbps", "MP3Download")
    case _ => WorkingAudio("MP3 128kbps", "5 MB", "https://www.onlineaudioconverter.com/youtube-converter?id=" + videoId,
                           "128 kbps", "AudioConverter")
  }

  /** The heights and bitrates the working catalogue offers, in its order. */
  const WorkingHeights: seq<nat> := [1080, 720, 480, 360]
  const WorkingRates: seq<nat> := [320, 256, 192, 128]

  /** A text that ends with the identifier contains it. */
  lemma EndsWithId(a: string, videoId: string)
    ensures Contains(a + videoId, videoId)
  {
    assert (a + videoId)[|a|..|a| + |videoId|] == videoId;
    OccurrenceContains(a + videoId, |a|, videoId);
  }

  lemma HeightTexts()
    ensures NatToString(1080) == "1080" && NatToString(720) == "720"
    ensures NatToString(480) == "480" && NatToString(360) == "360"
  {
    assert NatToString(1) == "1" && NatToString(10) == "10" && NatToString(108) == "108";
    assert NatToString(7) == "7" && NatToString(72) == "72";
    assert NatToString(4) == "4" && NatToString(48) == "48";
    assert NatToString(3) == "3" && NatToString(36) == "36";
  }

  lemma RateTexts()
    ensures NatToString(320) == "320" && NatToString(256) == "256"
    ensures NatToString(192) == "192" && NatToString(128) == "128"
  {
    assert NatToString(3) == "3" && NatToString(32) == "32";
    assert NatToString(2) == "2" && NatToString(25) == "25";
    assert NatToString(1) == "1" && NatToString(19) == "19" && NatToString(12) == "12";
  }

  /** Eight formats, the first four mp4 videos with sound from 1080p down to
      360p. */
  lemma WorkingVideos(videoId: string)
    ensures var fs := GenerateWorkingFormats(videoId);
            && |fs| == 8
            && (forall i :: 0 <= i < 4 ==>
                  fs[i].kind == "video" && fs[i].container == "mp4" && fs[i].hasAudio && !fs[i].isMusic
                  && fs[i].resolution == NatToString(WorkingHeights[i]) + "p")
            && (forall i, j :: 0 <= i < j < 4 ==> WorkingHeights[i] > WorkingHeights[j])
  {
    HeightTexts();
  }

  /** The last four are mp3 audios marked as music, from 320 down to
      128 kbps. */
  lemma WorkingAudios(videoId: string)
    ensures var fs := GenerateWorkingFormats(videoId);
            && (forall i :: 4 <= i < 8 ==>
                  fs[i].kind == "audio" && fs[i].container == "mp3" && fs[i].resolution == "Audio"
                  && fs[i].isMusic && fs[i].quality == "MP3 " + NatToString(WorkingRates[i - 4]) + "kbps")
            && (forall i, j :: 0 <= i < j < 4 ==> WorkingRates[i] > WorkingRates[j])
  {
    var fs := GenerateWorkingFormats(videoId);
    forall i | 4 <= i < 8
      ensures fs[i].kind == "audio" && fs[i].container == "mp3" && fs[i].resolution == "Audio"
      ensures fs[i].isMusic && fs[i].quality == "MP3 " + NatToString(WorkingRates[i - 4]) + "kbps"
    {
      WorkingAudioAt(i, videoId);
    }
  }

  /** One audio entry of the working catalogue. */
  lemma WorkingAudioAt(i: nat, videoId: string)
    requires 4 <= i < 8
    ensures var f := WorkingFormat(i, videoId);
            && f.kind == "audio" && f.container == "mp3" && f.resolution == "Audio" && f.isMusic
            && f.quality == "MP3 " + NatToString(WorkingRates[i - 4]) + "kbps"
  {
    match i
    case 4 =>
      assert NatToString(WorkingRates[0]) == "320" by { RateTexts(); }
      assert "MP3 " + "320" + "kbps" == "MP3 320kbps";
    case 5 =>
      assert NatToString(WorkingRates[1]) == "256" by { RateTexts(); }
      assert "MP3 " + "256" + "kbps" == "MP3 256kbps";
    case 6 =>
      assert NatToString(WorkingRates[2]) == "192" by { RateTexts(); }
      assert "MP3 " + "192" + "kbps" == "MP3 192kbps";
    case 7 =>
      assert NatToString(WorkingRates[3]) == "128" by { RateTexts(); }
      assert "MP3 " + "128" + "kbps" == "MP3 128kbps";
  }

  /** Every format comes from a named, reliable, tested service, and its
      link carries the identifier. */
  lemma WorkingUrls(videoId: string)
    ensures var fs := GenerateWorkingFormats(videoId);
            forall i :: 0 <= i < |fs| ==>
              fs[i].service.Some? && fs[i].reliable && fs[i].tested && Contains(fs[i].url, videoId)
  {
    var fs := GenerateWorkingFormats(videoId);
    forall i | 0 <= i < |fs|
      ensures fs[i].service.Some? && fs[i].reliable && fs[i].tested && Contains(fs[i].url, videoId)
    {
      WorkingUrlAt(i, videoId);
    }
  }

  /** One entry of the working catalogue names its service and links to a
      page ending with the identifier. */
  lemma WorkingUrlAt(i: nat, videoId: string)
    requires i < 8
    ensures var f := WorkingFormat(i, videoId);
            f.service.Some? && f.reliable && f.tested && Contains(f.url, videoId)
  {
    match i
    case 0 => EndsWithId(Y2MateUrl, videoId);
    case 1 => EndsWithId(YT5sUrl, videoId);
    case 2 => EndsWithId(OnlineVideoConverterUrl, videoId);
    case 3 => EndsWithId(SaveFromUrl, videoId);
    case 4 => EndsWithId("https://www.y2mate.com/youtube-mp3/", videoId);
    case 5 => EndsWithId("https://ytmp3.nu/", videoId);
    case 6 => EndsWithId("https://ymp3.download/en?url=https://youtube.com/watch?v=", videoId);
    case 7 => EndsWithId("https://www.onlineaudioconverter.com/youtube-converter?id=", videoId);
  }

  /** A service card: name, link, description and icon (missing ones are
      `None`). */
  datatype Service = Service(name: string, url: string, description: Option<string>, icon: Option<string>)

  /** `generateOnlineServices(videoId)`. */
  function GenerateOnlineServices(videoId: string): seq<Service> {
    [ Service("Y2Mate", Y2MateUrl + videoId, Some("Video & MP3 Downloader Terbaik"), Some("fas fa-crown")),
      Service("YT5s", YT5sUrl + videoId, Some("Download Super Cepat"), Some("fas fa-bolt")),
      Service("SaveFrom", SaveFromUrl + videoId, Some("Video Downloader"), Some("fas fa-download")),
      Service("OnlineConverter", OnlineVideoConverterUrl + videoId, Some("Multi Format Converter"),
              Some("fas fa-exchange-alt")) ]
  }

  /** Which working format each service card stands for. */
  const ServiceFormat: seq<nat> := [0, 1, 3, 2]

  /** Each service card links to the same page as the video format of the
      same service; together they cover the four video formats. */
  lemma ServicesMatchFormats(videoId: string)
    ensures var fs := GenerateWorkingFormats(videoId);
            var ss := GenerateOnlineServices(videoId);
            && |ss| == 4
            && (forall k :: 0 <= k < 4 ==>
                  ServiceFormat[k] < 4 && fs[ServiceFormat[k]].service == Some(ss[k].name)
                  && fs[ServiceFormat[k]].url == ss[k].url)
            && multiset(ServiceFormat) == multiset{0, 1, 2, 3}
  {
    assert ServiceFormat == [0] + [1] + [3] + [2];
  }

  // ---------------------------------------------------------------------------
  // Music detection: `isLikelyMusic`

  const MusicKeywords: seq<string> := [
    "music", "song", "audio", "mp3", "track", "album",
    "lyric", "mv", "official video", "cover", "remix",
    "instrumental", "live", "concert", "acoustic",
    "musik", "lagu", "audio only", "soundtrack",
    "ost", "theme song", "single", "ep", "album"
  ]

  const MusicChannels: seq<string> := [
    "vevo", "topic", "music", "records", "label",
    "sound", "audio", "tunes", "melody", "rhythm",
    "studio", "production", "entertainment"
  ]

  /** ` - ` (artist - song), `ft.`, `feat.`, `featuring`. */
  const MusicMarkers: seq<string> := [" - ", "ft.", "feat.", "featuring"]

  predicate ContainsAny(s: string, ks: seq<string>) {
    exists k :: 0 <= k < |ks| && Contains(s, ks[k])
  }

  /** The brackets of `\[official\s+(video|audio|lyric)\]`, its round
      variant and its `【】` variant. */
  const TagOpens: seq<char> := ['[', '(', '\U{3010}']
  const TagCloses: seq<char> := [']', ')', '\U{3011}']

  /** `video`, `audio` or `lyric` at index `j`, then the character `close`. */
  predicate WordThenClose(u: string, j: nat, close: char) {
    j + 6 <= |u| && u[j + 5] == close
    && (StartsAt(u, j, "video") || StartsAt(u, j, "audio") || StartsAt(u, j, "lyric"))
  }

  /** A tag of bracket kind `b` starts at index `i` of the lower-cased title:
      the opening bracket, `official`, one or more white-space characters,
      the word and the closing bracket. */
  predicate TagAt(u: string, i: nat, b: nat) {
    b < 3 && i < |u| && u[i] == TagOpens[b] && StartsAt(u, i + 1, "official")
    && exists j :: i + 10 <= j <= |u| && AllSpace(u[i + 9..j]) && WordThenClose(u, j, TagCloses[b])
  }

  predicate HasOfficialTag(title: string) {
    exists i, b :: 0 <= i < |title| && 0 <= b < 3 && TagAt(Lower(title), i, b)
  }

  /** `isLikelyMusic(title, author)`. */
  predicate IsLikelyMusic(title: Option<string>, author: Option<string>) {
    Truthy(title) &&
    var t := Lower(title.value);
    || ContainsAny(t, MusicKeywords)
    || ContainsAny(Lower(OrElse(author, "")), MusicChannels)
    || ContainsAny(t, MusicMarkers)
    || HasOfficialTag(title.value)
  }

  /** Without a title nothing is music, whatever the author. */
  lemma NoTitleNoMusic(author: Option<string>)
    ensures !IsLikelyMusic(None, author) && !IsLikelyMusic(Some(""), author)
  {
  }

  /** Only the lower-cased title matters. */
  lemma MusicIgnoresTitleCase(title: string, author: Option<string>)
    ensures IsLikelyMusic(Some(title), author) == IsLikelyMusic(Some(Lower(title)), author)
  {
    LowerIdempotent(title);
    assert (title == []) == (Lower(title) == []);
  }

  /** A slice of the middle part of `p + u + q`, at shifted indices. */
  lemma SliceShift(p: string, u: string, q: string, x: nat, y: nat)
    requires x <= y <= |u|
    ensures (p + u + q)[|p| + x..|p| + y] == u[x..y]
  {
    assert forall k :: x <= k < y ==> (p + u + q)[|p| + k] == u[k];
  }

  /** A tag survives text around the title. */
  lemma TagShift(p: string, u: string, q: string, i: nat, b: nat)
    requires TagAt(u, i, b)
    ensures TagAt(p + u + q, |p| + i, b)
  {
    var v := p + u + q;
    var j :| i + 10 <= j <= |u| && AllSpace(u[i + 9..j]) && WordThenClose(u, j, TagCloses[b]);
    SliceShift(p, u, q, i + 1, i + 9);
    SliceShift(p, u, q, i + 9, j);
    SliceShift(p, u, q, j, j + 5);
    assert v[|p| + i] == u[i] && v[|p| + j + 5] == u[j + 5];
    assert WordThenClose(v, |p| + j, TagCloses[b]);
  }

  /** A title judged music stays music with any text added around it. */
  lemma MusicGrowsWithTitle(p: string, title: string, q: string, author: Option<string>)
    requires IsLikelyMusic(Some(title), author)
    ensures IsLikelyMusic(Some(p + title + q), author)
  {
    var t := Lower(title);
    var big := p + title + q;
    LowerConcat(p + title, q);
    LowerConcat(p, title);
    assert Lower(big) == Lower(p) + t + Lower(q);
    if ContainsAny(t, MusicKeywords) {
      var k :| 0 <= k < |MusicKeywords| && Contains(t, MusicKeywords[k]);
      ContainsExtend(Lower(p), t, Lower(q), MusicKeywords[k]);
    } else if ContainsAny(t, MusicMarkers) {
      var k :| 0 <= k < |MusicMarkers| && Contains(t, MusicMarkers[k]);
      ContainsExtend(Lower(p), t, Lower(q), MusicMarkers[k]);
    } else if HasOfficialTag(title) {
      var i, b :| 0 <= i < |title| && 0 <= b < 3 && TagAt(t, i, b);
      TagShift(Lower(p), t, Lower(q), i, b);
    }
  }

  const FallbackTitle := "YouTube Video (Live Mode)"
  const FallbackAuthor := "YouTube Creator"

  /** The page's own fallback title counts as music: it contains `live`. */
  lemma FallbackTitleIsMusic()
    ensures IsLikelyMusic(Some(FallbackTitle), Some(FallbackAuthor))
  {
    var t := Lower(FallbackTitle);
    assert t[15..19] == "live";
    OccurrenceContains(t, 15, "live");
    assert MusicKeywords[12] == "live";
  }

  /** A bracketed tag with several spaces between its words is found by
      the tag patterns. */
  lemma TagWithWideSpace()
    ensures HasOfficialTag("X (Official  Video)")
  {
    var u := Lower("X (Official  Video)");
    assert u == "x (official  video)";
    assert TagAt(u, 2, 1) by { WideTagAt(u); }
  }

  /** The lower-cased title holds a `(` tag at index 2 whose word follows
      two spaces. */
  lemma WideTagAt(u: string)
    requires u == "x (official  video)"
    ensures TagAt(u, 2, 1)
  {
    assert StartsAt(u, 3, "official");
    assert AllSpace(u[11..13]);
    assert TagOpens[1] == '(' && TagCloses[1] == ')';
    assert WordThenClose(u, 13, TagCloses[1]);
  }

  // ---------------------------------------------------------------------------
  // Format lists by type, cards and the card filter

  /** `formats.filter(f => f.type === kind)`. */
  function OfKind(fs: seq<ClientFormat>, kind: string): (r: seq<ClientFormat>)
    ensures forall i :: 0 <= i < |r| ==> r[i].kind == kind
    ensures |r| <= |fs|
  {
    if fs == [] then []
    else OfKind(fs[..|fs| - 1], kind) + (if fs[|fs| - 1].kind == kind then [fs[|fs| - 1]] else [])
  }

  /** A format is kept exactly when it is of the wanted type. */
  lemma {:induction false} OfKindMembers(fs: seq<ClientFormat>, kind: string, f: ClientFormat)
    ensures f in OfKind(fs, kind) <==> f in fs && f.kind == kind
  {
    if fs != [] {
      var init := fs[..|fs| - 1];
      OfKindMembers(init, kind, f);
      assert fs == init + [fs[|fs| - 1]];
    }
  }

  /** When every format is a video or an audio, the two lists split the
      formats, each format as often as it occurs, and the counts shown add
      up to the total. */
  lemma OfKindPartition(fs: seq<ClientFormat>)
    requires forall i :: 0 <= i < |fs| ==> fs[i].kind == "video" || fs[i].kind == "audio"
    ensures multiset(OfKind(fs, "video")) + multiset(OfKind(fs, "audio")) == multiset(fs)
    ensures |OfKind(fs, "video")| + |OfKind(fs, "audio")| == |fs|
  {
    OfKindSplit(fs, "video", "audio");
  }

  /** The same for any two different types. */
  lemma {:induction false} OfKindSplit(fs: seq<ClientFormat>, a: string, b: string)
    requires a != b
    requires forall i :: 0 <= i < |fs| ==> fs[i].kind == a || fs[i].kind == b
    ensures multiset(OfKind(fs, a)) + multiset(OfKind(fs, b)) == multiset(fs)
    ensures |OfKind(fs, a)| + |OfKind(fs, b)| == |fs|
  {
    if fs != [] {
      var init, last := fs[..|fs| - 1], fs[|fs| - 1];
      assert fs == init + [last];
      OfKindSplit(init, a, b);
      OfKindSnoc(init, last, a);
      OfKindSnoc(init, last, b);
    }
  }

  /** Filtering a list with one more format at its end. */
  lemma OfKindSnoc(init: seq<ClientFormat>, last: ClientFormat, kind: string)
    ensures OfKind(init + [last], kind) == OfKind(init, kind) + (if last.kind == kind then [last] else [])
  {
    assert (init + [last])[..|init|] == init;
  }

  lemma {:induction false} OfKindAll(fs: seq<ClientFormat>, kind: string)
    requires forall i :: 0 <= i < |fs| ==> fs[i].kind == kind
    ensures OfKind(fs, kind) == fs
  {
    if fs != [] {
      OfKindAll(fs[..|fs| - 1], kind);
      assert fs == fs[..|fs| - 1] + [fs[|fs| - 1]];
    }
  }

  lemma {:induction false} OfKindNone(fs: seq<ClientFormat>, kind: string)
    requires forall i :: 0 <= i < |fs| ==> fs[i].kind != kind
    ensures OfKind(fs, kind) == []
  {
    if fs != [] {
      OfKindNone(fs[..|fs| - 1], kind);
    }
  }

  lemma {:induction false} OfKindConcat(a: seq<ClientFormat>, b: seq<ClientFormat>, kind: string)
    ensures OfKind(a + b, kind) == OfKind(a, kind) + OfKind(b, kind)
    decreases |b|
  {
    if b == [] {
      assert a + b == a;
    } else {
      var init := b[..|b| - 1];
      assert (a + b)[..|a + b| - 1] == a + init;
      OfKindConcat(a, init, kind);
    }
  }

  /** The working catalogue splits into its first four and its last four. */
  lemma WorkingFormatsSplit(videoId: string)
    ensures var fs := GenerateWorkingFormats(videoId);
            OfKind(fs, "video") == fs[..4] && OfKind(fs, "audio") == fs[4..]
  {
    var fs := GenerateWorkingFormats(videoId);
    WorkingVideos(videoId);
    WorkingAudios(videoId);
    KindsSplit(fs, 4);
  }

  /** A list whose first `n` formats are videos and whose others are audios
      splits there. */
  lemma KindsSplit(fs: seq<ClientFormat>, n: nat)
    requires n <= |fs|
    requires forall i :: 0 <= i < n ==> fs[i].kind == "video"
    requires forall i :: n <= i < |fs| ==> fs[i].kind == "audio"
    ensures OfKind(fs, "video") == fs[..n] && OfKind(fs, "audio") == fs[n..]
  {
    var videos, audios := fs[..n], fs[n..];
    assert fs == videos + audios;
    assert forall i :: 0 <= i < |audios| ==> audios[i].kind == "audio" by {
      forall i | 0 <= i < |audios| ensures audios[i].kind == "audio" {
        assert audios[i] == fs[n + i];
      }
    }
    VideosThenAudios(videos, audios);
  }

  /** Videos followed by audios: each filter gives back its part. */
  lemma VideosThenAudios(videos: seq<ClientFormat>, audios: seq<ClientFormat>)
    requires forall i :: 0 <= i < |videos| ==> videos[i].kind == "video"
    requires forall i :: 0 <= i < |audios| ==> audios[i].kind == "audio"
    ensures OfKind(videos + audios, "video") == videos && OfKind(videos + audios, "audio") == audios
  {
    assert OfKind(videos, "video") == videos && OfKind(videos, "audio") == [] by {
      OfKindAll(videos, "video");
      OfKindNone(videos, "audio");
    }
    assert OfKind(audios, "audio") == audios && OfKind(audios, "video") == [] by {
      OfKindAll(audios, "audio");
      OfKindNone(audios, "video");
    }
    OfKindConcat(videos, audios, "video");
    OfKindConcat(videos, audios, "audio");
    assert videos + [] == videos && [] + audios == audios;
  }

  /** An envelope whose first `n` formats are videos and whose others are
      audios reads as those two parts. */
  lemma EnvelopeSplit(e: EdgeApi.Envelope, n: nat)
    requires n <= |e.formats|
    requires forall i :: 0 <= i < n ==> e.formats[i].kind == EdgeApi.Video
    requires forall i :: n <= i < |e.formats| ==> e.formats[i].kind == EdgeApi.Audio
    ensures var fs := FromEnvelope(e).formats.value;
            OfKind(fs, "video") == fs[..n] && OfKind(fs, "audio") == fs[n..]
  {
    var fs := FromEnvelope(e).formats.value;
    assert forall i :: 0 <= i < |fs| ==> fs[i] == FromEdge(e.formats[i]);
    KindsSplit(fs, n);
  }

  /** A rendered card: `data-quality` (the resolution, or the quality when
      the resolution is empty), `data-type`, `data-service` (`unknown` when
      missing), the format behind it and its `display` style. */
  datatype Card = Card(dataQuality: string, kind: string, service: string, format: ClientFormat, shown: bool)

  function CardOf(f: ClientFormat): (c: Card)
    ensures c.format == f && c.kind == f.kind && c.shown
  {
    Card(if f.resolution != "" then f.resolution else f.quality, f.kind, OrElse(f.service, "unknown"), f, true)
  }

  function Cards(fs: seq<ClientFormat>): (cs: seq<Card>)
    ensures |cs| == |fs|
    ensures forall i :: 0 <= i < |fs| ==> cs[i] == CardOf(fs[i])
  {
    seq(|fs|, i requires 0 <= i < |fs| => CardOf(fs[i]))
  }

  /** `resetFilters` on a card list. */
  function ShowAll(cs: seq<Card>): (r: seq<Card>)
    ensures |r| == |cs|
    ensures forall i :: 0 <= i < |cs| ==> r[i] == cs[i].(shown := true)
  {
    seq(|cs|, i requires 0 <= i < |cs| => cs[i].(shown := true))
  }

  /** Fresh cards are shown, so resetting them changes nothing. */
  lemma ShowAllCards(fs: seq<ClientFormat>)
    ensures ShowAll(Cards(fs)) == Cards(fs)
  {
  }

  /** The card filter of `filterFormats`. */
  predicate ShouldShow(c: Card, quality: string) {
    || quality == "all"
    || Contains(c.dataQuality, quality)
    || Contains(Lower(c.service), Lower(quality))
  }

  /** `all` shows every card, a card's own `data-quality` shows it, and so
      does its service name in any case. */
  lemma ShouldShowProperties(c: Card, quality: string)
    ensures ShouldShow(c, "all")
    ensures ShouldShow(c, c.dataQuality)
    ensures Lower(quality) == Lower(c.service) ==> ShouldShow(c, quality)
  {
    OccurrenceContains(c.dataQuality, 0, c.dataQuality);
    OccurrenceContains(Lower(c.service), 0, Lower(c.service));
  }

  /** How many cards the filter shows. */
  function CountShown(cs: seq<Card>, quality: string): (n: nat)
    ensures n <= |cs|
  {
    if cs == [] then 0
    else CountShown(cs[..|cs| - 1], quality) + (if ShouldShow(cs[|cs| - 1], quality) then 1 else 0)
  }

  /** No card is shown exactly when none passes the filter; `all` shows
      them all. */
  lemma {:induction false} CountShownProperties(cs: seq<Card>, quality: string)
    ensures CountShown(cs, quality) == 0 <==> forall i :: 0 <= i < |cs| ==> !ShouldShow(cs[i], quality)
    ensures quality == "all" ==> CountShown(cs, quality) == |cs|
  {
    if cs != [] {
      var init := cs[..|cs| - 1];
      CountShownProperties(init, quality);
      assert forall i :: 0 <= i < |init| ==> init[i] == cs[i];
    }
  }

  /** The `forEach` of `filterFormats` over one tab's cards: each card is
      shown exactly when it passes the filter, and the shown cards are
      counted. */
  method FilterCards(cards: seq<Card>, quality: string) returns (after: seq<Card>, visibleCount: nat)
    ensures |after| == |cards|
    ensures forall i :: 0 <= i < |after| ==> after[i] == cards[i].(shown := ShouldShow(cards[i], quality))
    ensures visibleCount == CountShown(cards, quality)
  {
    after := cards;
    visibleCount := 0;
    var i := 0;
    while i < |cards|
      invariant 0 <= i <= |cards| == |after|
      invariant visibleCount == CountShown(cards[..i], quality)
      invariant forall k :: 0 <= k < i ==> after[k] == cards[k].(shown := ShouldShow(cards[k], quality))
    {
      assert cards[..i + 1][..i] == cards[..i];
      var show := ShouldShow(cards[i], quality);
      after := after[i := cards[i].(shown := show)];
      if show {
        visibleCount := visibleCount + 1;
      }
      i := i + 1;
    }
    assert cards[..|cards|] == cards;
  }

  // ---------------------------------------------------------------------------
  // Starting a download: `startDownload`

  /** `[^a-z0-9]` with `/i` replaced by `_`. */
  function SafeChar(c: char): char {
    if IsAlnum(c) then c else '_'
  }

  function Sanitise(quality: string): (r: string)
    ensures |r| == |quality|
    ensures forall i :: 0 <= i < |r| ==> r[i] == SafeChar(quality[i])
  {
    seq(|quality|, i requires 0 <= i < |quality| => SafeChar(quality[i]))
  }

  /** `VYT_${safeQuality}_${timestamp}.${container}`. */
  function DownloadFilename(quality: string, timestamp: nat, container: string): string {
    "VYT_" + Lower(Sanitise(quality)) + "_" + NatToString(timestamp) + "." + container
  }

  /** The part of a file name made from the quality: lower-case letters,
      digits and `_` only, one per quality character; letters and digits are
      kept (lower-cased), anything else becomes `_`. */
  lemma SafeQuality(quality: string)
    ensures var m := Lower(Sanitise(quality));
            && |m| == |quality|
            && (forall i :: 0 <= i < |m| ==> ('a' <= m[i] <= 'z' || IsDigit(m[i]) || m[i] == '_'))
            && (forall i :: 0 <= i < |m| ==> (m[i] == '_' <==> !IsAlnum(quality[i])))
            && Lower(Sanitise(m)) == m
  {
    var m := Lower(Sanitise(quality));
    assert forall i :: 0 <= i < |m| ==> m[i] == LowerChar(SafeChar(quality[i]));
  }

  /** The file name reads back: `VYT_`, the safe quality, `_`, the timestamp
      in decimal (which parses back to it), `.` and the container. */
  lemma FilenameParts(quality: string, timestamp: nat, container: string)
    ensures var name := DownloadFilename(quality, timestamp, container);
            var q := |quality| + 4;
            var t := NatToString(timestamp);
            && name[..4] == "VYT_"
            && name[4..q] == Lower(Sanitise(quality))
            && name[q] == '_'
            && name[q + 1..q + 1 + |t|] == t && ParseNat(t) == Some(timestamp)
            && name[q + 1 + |t|..] == "." + container
  {
    var m := Lower(Sanitise(quality));
    var t := NatToString(timestamp);
    assert |m| == |quality|;
    assert DownloadFilename(quality, timestamp, container) == "VYT_" + m + "_" + t + ("." + container);
    JoinedParts("VYT_", m, "_", t, "." + container);
    ParseNatToString(timestamp);
  }

  /** The five parts of a joined name sit where their lengths put them. */
  lemma JoinedParts(a: string, b: string, c: string, d: string, e: string)
    requires |c| == 1
    ensures var n := a + b + c + d + e;
            && n[..|a|] == a && n[|a|..|a| + |b|] == b && n[|a| + |b|] == c[0]
            && n[|a| + |b| + 1..|a| + |b| + 1 + |d|] == d && n[|a| + |b| + 1 + |d|..] == e
  {
    var n := a + b + c + d + e;
    assert n == a + (b + (c + (d + e)));
  }

  /** What `startDownload` hands to the window it opens: the link, the file
      name, and whether it is music. */
  datatype DownloadPlan = DownloadPlan(url: string, filename: string, music: bool)

  // ---------------------------------------------------------------------------
  // The data the page keeps

  /** `meta` as the page reads it; a missing field is `None`, a missing
      `isMusic` is false. */
  datatype ClientMeta = ClientMeta(
    title: Option<string>, thumbnail: Option<string>, thumbnailSd: Option<string>,
    thumbnailHq: Option<string>, videoId: Option<string>, duration: nat,
    durationFormatted: Option<string>, author: Option<string>, isMusic: bool)

  /** `currentVideoData`. */
  datatype VideoData = VideoData(
    success: bool, meta: Option<ClientMeta>, formats: Option<seq<ClientFormat>>,
    services: Option<seq<Service>>, note: Option<string>)

  /** The JSON envelope of the edge function as the page reads it. */
  function FromEnvelope(e: EdgeApi.Envelope): (d: VideoData)
    ensures d.success == e.success && d.formats.Some? && |d.formats.value| == |e.formats|
    ensures forall i :: 0 <= i < |e.formats| ==> d.formats.value[i] == FromEdge(e.formats[i])
  {
    var m := e.meta;
    VideoData(
      e.success,
      Some(ClientMeta(Some(m.title), Some(m.thumbnail), Some(m.thumbnailSd), m.thumbnailHq, Some(m.videoId),
                      m.duration, Some(m.durationFormatted), Some(m.author), false)),
      Some(seq(|e.formats|, i requires 0 <= i < |e.formats| => FromEdge(e.formats[i]))),
      match e.downloadServices
      case None => None
      case Some(ss) => Some(seq(|ss|, i requires 0 <= i < |ss| => Service(ss[i].name, ss[i].url, None, None))),
      e.note)
  }

  const DefaultVideoId := "dQw4w9WgXcQ"
  const LiveModeNote := "Menggunakan system live. Klik download untuk mulai."

  /** The object `useFallbackData` builds for an identifier. */
  function FallbackData(videoId: string): VideoData {
    VideoData(
      true,
      Some(ClientMeta(Some(FallbackTitle), Some(EdgeApi.Thumbnail(videoId, "maxresdefault")),
                      Some(EdgeApi.Thumbnail(videoId, "sddefault")), Some(EdgeApi.Thumbnail(videoId, "hqdefault")),
                      Some(videoId), 180, Some("3:00"), Some(FallbackAuthor),
                      IsLikelyMusic(Some(""), Some("")))),
      Some(GenerateWorkingFormats(videoId)),
      Some(GenerateOnlineServices(videoId)),
      Some(LiveModeNote))
  }

  /** The fallback claims 180 seconds and shows them as the `m:ss` text that
      reads back as 180; its own `isMusic` is false (it asks about an empty
      title), although the title it then shows counts as music. */
  lemma FallbackDataShape(videoId: string)
    ensures var d := FallbackData(videoId);
            && d.success && d.meta.Some? && d.meta.value.videoId == Some(videoId)
            && d.meta.value.durationFormatted == Some(Clock(d.meta.value.duration))
            && ParseClock(d.meta.value.durationFormatted.value) == Some(d.meta.value.duration)
            && !d.meta.value.isMusic
            && IsLikelyMusic(d.meta.value.title, d.meta.value.author)
            && d.formats == Some(GenerateWorkingFormats(videoId))
            && d.services == Some(GenerateOnlineServices(videoId))
  {
    EdgeApi.ClockOf180();
    ClockRoundTrip(180);
    FallbackTitleIsMusic();
  }

  /** The identifier `useFallbackData` uses: nothing when the `URL` parser
      throws, else the extracted one, or `dQw4w9WgXcQ` when none (or an
      empty one) is found. */
  function FallbackVideoId(url: string, u: UrlObject): (r: Option<string>)
    ensures FirstMatch(IdPatterns, url).Some? ==> r == FirstMatch(IdPatterns, url)
    ensures FirstMatch(IdPatterns, url).None? && u.Unparsable? ==> r.None?
    ensures FirstMatch(IdPatterns, url).None? && UrlStage(u).NotFound? ==> r == Some(DefaultVideoId)
    ensures r.Some? ==> r.value != ""
  {
    var e := if FirstMatch(IdPatterns, url).Some? then Found(FirstMatch(IdPatterns, url).value) else UrlStage(u);
    if e.Threw? then None
    else if e.Found? && e.id != "" then Some(e.id)
    else Some(DefaultVideoId)
  }

  /** `currentVideoData?.meta?.videoId || 'demo'`. */
  function CurrentVideoId(d: Option<VideoData>): string {
    if d.Some? && d.value.meta.Some? then OrElse(d.value.meta.value.videoId, "demo") else "demo"
  }

  // ---------------------------------------------------------------------------
  // The page

  /** The elements the class writes. `musicBadge` is the MUSIC badge after
      the title; `toast` is the last toast message. */
  datatype Page = Page(
    title: string, author: string, idText: string, duration: string, length: string,
    thumbnail: string, musicBadge: bool,
    formatCount: nat, videoCount: nat, audioCount: nat,
    videoCards: seq<Card>, audioCards: seq<Card>, services: seq<Service>,
    resultsShown: bool, errorShown: bool, loading: bool, toast: string)

  const BlankPage := Page("", "", "", "", "", "", false, 0, 0, 0, [], [], [], false, false, false, "")

  const LocalBaseUrl := "http://localhost:3000"
  const EmptyInputToast := "\U{1F4DD} Masukkan URL YouTube terlebih dahulu!"
  const InvalidUrlToast := "\U{274C} URL YouTube tidak valid!"
  const LiveModeToast := "\U{26A1} Live Mode Active! Semua link siap digunakan."

  /** The toast after a successful request: the first fifty characters of the
      title, and `...` when there were more. */
  function SuccessToast(title: string): string {
    "\U{2705} " + (if |title| > 50 then title[..50] + "..." else title)
  }

  /** The toast of `startDownload`. */
  function PreparingToast(quality: string, music: bool): string {
    if music then "\U{1F3B5} Menyiapkan download musik " + quality + "..."
    else "\U{1F3A5} Menyiapkan download video " + quality + "..."
  }

  /** The tab `displayFormats` ends on. */
  function TabFor(isMusic: bool, audios: seq<ClientFormat>): string {
    if isMusic && |audios| > 0 then "audio" else "video"
  }

  /** The page once `displayVideoInfo` has shown `m`: the texts with their
      placeholders, and the badge for the music decision `music`. */
  function InfoShown(p: Page, m: ClientMeta, music: bool): Page {
    p.(title := OrElse(m.title, "YouTube Video"), author := OrElse(m.author, "YouTube Creator"),
       idText := OrElse(m.videoId, "N/A"),
       duration := OrElse(m.durationFormatted, "0:00"), length := OrElse(m.durationFormatted, "0:00"),
       thumbnail := OrElse(m.thumbnail, EdgeApi.Thumbnail(UrlText(m.videoId), "maxresdefault")),
       musicBadge := music)
  }

  /** The page once `displayFormats` has listed `fs`: the counts, and one
      card per video and per audio format, in order, all shown. */
  function FormatsShown(p: Page, fs: seq<ClientFormat>): Page {
    p.(formatCount := |fs|, videoCount := |OfKind(fs, "video")|, audioCount := |OfKind(fs, "audio")|,
       videoCards := Cards(OfKind(fs, "video")), audioCards := Cards(OfKind(fs, "audio")))
  }

  /** The page once an answer `data` (with a formats list) has been shown
      on the page `p`: its meta when it has one, its formats, its services
      (or the four standard ones), the results, and the toast for `title`. */
  function AnswerPage(p: Page, data: VideoData, music: bool, title: string): Page
    requires data.formats.Some?
  {
    var info := if data.meta.Some? then InfoShown(p, data.meta.value, music) else p;
    FormatsShown(info, data.formats.value).(
      services := data.services.GetOr(GenerateOnlineServices(CurrentVideoId(Some(data)))),
      resultsShown := true, toast := SuccessToast(title))
  }

  /** What an answer from the edge function puts on the page (every
      envelope it builds has this shape): one card per format, the videos
      (six, or one on the fault path) before the audios; the envelope's
      title and author; its two services, or the four standard ones on the
      fault path; the results and the toast. Every envelope has audio, so
      an answer judged music lands on the audio tab. */
  lemma EdgeAnswerLayout(e: EdgeApi.Envelope, fault: bool, p: Page, music: bool)
    requires EdgeApi.Shaped(e, fault)
    ensures var fs := FromEnvelope(e).formats.value;
            var q := AnswerPage(p, FromEnvelope(e), music, e.meta.title);
            var n := if fault then 1 else 6;
            && |fs| == |e.formats| == (if fault then 2 else 10)
            && q.formatCount == |e.formats| && q.videoCount == n && q.videoCount + q.audioCount == q.formatCount
            && q.videoCards == Cards(fs[..n]) && q.audioCards == Cards(fs[n..])
            && TabFor(music, OfKind(fs, "audio")) == (if music then "audio" else "video")
            && q.title == e.meta.title && q.author == e.meta.author
            && |q.services| == (if fault then 4 else 2)
            && q.resultsShown && q.toast == SuccessToast(e.meta.title)
  {
    var n := if fault then 1 else 6;
    EnvelopeSplit(e, n);
    AnswerLayout(e, p, music, n);
  }

  /** The page an envelope's answer leaves: the first `n` formats as video
      cards, the rest as audio cards, its title and author, its services
      or the four standard ones. */
  lemma AnswerLayout(e: EdgeApi.Envelope, p: Page, music: bool, n: nat)
    requires n <= |e.formats|
    requires var fs := FromEnvelope(e).formats.value;
             OfKind(fs, "video") == fs[..n] && OfKind(fs, "audio") == fs[n..]
    requires e.meta.title != "" && e.meta.author != ""
    ensures var fs := FromEnvelope(e).formats.value;
            var q := AnswerPage(p, FromEnvelope(e), music, e.meta.title);
            && q.formatCount == |e.formats| && q.videoCount == n && q.videoCount + q.audioCount == q.formatCount
            && q.videoCards == Cards(fs[..n]) && q.audioCards == Cards(fs[n..])
            && TabFor(music, OfKind(fs, "audio")) == (if music && n < |e.formats| then "audio" else "video")
            && q.title == e.meta.title && q.author == e.meta.author
            && q.services == (if e.downloadServices.Some? then FromEnvelope(e).services.value
                              else GenerateOnlineServices(OrElse(Some(e.meta.videoId), "demo")))
            && q.resultsShown && q.toast == SuccessToast(e.meta.title)
  {
  }

  /** The card loop of `displayFormats` (`createFormatCard` for each format,
      in order). */
  method BuildCards(fs: seq<ClientFormat>) returns (cards: seq<Card>)
    ensures cards == Cards(fs)
  {
    cards := [];
    for i := 0 to |fs|
      invariant cards == Cards(fs[..i])
    {
      cards := cards + [CardOf(fs[i])];
    }
    assert fs[..|fs|] == fs;
  }

  class Downloader {
    var baseUrl: string
    var currentFormats: seq<ClientFormat>
    var currentTab: string
    var currentVideoData: Option<VideoData>
    var isMusicDetected: bool
    var page: Page

    /** The object after construction, for the page's origin and host name:
        a local host talks to port 3000, any other to its own origin. */
    constructor(origin: string, hostname: string)
      ensures baseUrl == (if hostname == "localhost" || hostname == "127.0.0.1" then LocalBaseUrl else origin)
      ensures currentFormats == [] && currentTab == "video" && currentVideoData.None? && !isMusicDetected
      ensures page == BlankPage
    {
      baseUrl := if hostname == "localhost" || hostname == "127.0.0.1" then LocalBaseUrl else origin;
      currentFormats := [];
      currentTab := "video";
      currentVideoData := None;
      isMusicDetected := false;
      page := BlankPage;
    }

    /** `switchTab`: remembers the tab and shows again every card of that
        tab (`resetFilters`); a tab with no cards changes no card. */
    method SwitchTab(tab: string)
      modifies this
      ensures currentTab == tab
      ensures page == old(page).(
                videoCards := if tab == "video" then ShowAll(old(page.videoCards)) else old(page.videoCards),
                audioCards := if tab == "audio" then ShowAll(old(page.audioCards)) else old(page.audioCards))
      ensures baseUrl == old(baseUrl) && currentFormats == old(currentFormats)
      ensures currentVideoData == old(currentVideoData) && isMusicDetected == old(isMusicDetected)
    {
      currentTab := tab;
      if tab == "video" {
        page := page.(videoCards := ShowAll(page.videoCards));
      } else if tab == "audio" {
        page := page.(audioCards := ShowAll(page.audioCards));
      }
    }

    /** `displayVideoInfo(meta)`: nothing without `meta`; otherwise the texts
        with their placeholders, and the music decision: the `isMusic` flag
        or the title and author judged music. */
    method DisplayVideoInfo(meta: Option<ClientMeta>)
      modifies this
      ensures meta.None? ==> page == old(page) && isMusicDetected == old(isMusicDetected)
      ensures meta.Some? ==>
                var m := meta.value;
                && isMusicDetected == (m.isMusic || IsLikelyMusic(m.title, m.author))
                && page == InfoShown(old(page), m, isMusicDetected)
      ensures baseUrl == old(baseUrl) && currentFormats == old(currentFormats)
      ensures currentTab == old(currentTab) && currentVideoData == old(currentVideoData)
    {
      if meta.None? {
        return;
      }
      var m := meta.value;
      page := page.(
        title := OrElse(m.title, "YouTube Video"), author := OrElse(m.author, "YouTube Creator"),
        idText := OrElse(m.videoId, "N/A"),
        duration := OrElse(m.durationFormatted, "0:00"), length := OrElse(m.durationFormatted, "0:00"),
        thumbnail := OrElse(m.thumbnail, EdgeApi.Thumbnail(UrlText(m.videoId), "maxresdefault")));
      isMusicDetected := m.isMusic || IsLikelyMusic(m.title, m.author);
      page := page.(musicBadge := isMusicDetected);
    }

    /** `displayFormats(formats)`: the demo catalogue when the input is not a
        list; the counts, one card per video and per audio format in order,
        and the audio tab when music was detected and there is audio, else
        the video tab. */
    method DisplayFormats(formats: Option<seq<ClientFormat>>)
      modifies this
      ensures var fs := formats.GetOr(GenerateWorkingFormats("demo"));
              && currentTab == TabFor(isMusicDetected, OfKind(fs, "audio"))
              && page == FormatsShown(old(page), fs)
      ensures baseUrl == old(baseUrl) && currentFormats == old(currentFormats)
      ensures currentVideoData == old(currentVideoData) && isMusicDetected == old(isMusicDetected)
    {
      var fs := if formats.Some? then formats.value else GenerateWorkingFormats("demo");
      var videos := OfKind(fs, "video");
      var audios := OfKind(fs, "audio");
      page := page.(formatCount := |fs|, videoCount := |videos|, audioCount := |audios|);
      var videoCards := BuildCards(videos);
      var audioCards := BuildCards(audios);
      page := page.(videoCards := videoCards, audioCards := audioCards);
      ShowAllCards(videos);
      ShowAllCards(audios);
      SwitchTab(TabFor(isMusicDetected, audios));
    }

    /** `displayServices(services)`: the given cards, or the four standard
        services for the current video (`demo` without one). */
    method DisplayServices(services: Option<seq<Service>>)
      modifies this
      ensures page == old(page).(services := services.GetOr(GenerateOnlineServices(CurrentVideoId(currentVideoData))))
      ensures baseUrl == old(baseUrl) && currentFormats == old(currentFormats) && currentTab == old(currentTab)
      ensures currentVideoData == old(currentVideoData) && isMusicDetected == old(isMusicDetected)
    {
      var ss := if services.Some? then services.value else GenerateOnlineServices(CurrentVideoId(currentVideoData));
      page := page.(services := ss);
    }

    /** Un-hides the results section and raises a toast. */
    method ShowResults(toast: string)
      modifies this
      ensures page == old(page).(resultsShown := true, toast := toast)
      ensures baseUrl == old(baseUrl) && currentFormats == old(currentFormats) && currentTab == old(currentTab)
      ensures currentVideoData == old(currentVideoData) && isMusicDetected == old(isMusicDetected)
    {
      page := page.(resultsShown := true, toast := toast);
    }

    /** `useFallbackData(url)`. When the `URL` parser throws inside
        `extractVideoId` the exception escapes and nothing changes
        (`completed` false). Otherwise the live-mode data for the identifier
        is stored and shown; its title counts as music, so the page always
        lands on the audio tab. */
    method UseFallbackData(url: string, u: UrlObject) returns (completed: bool)
      modifies this
      ensures completed <==> FallbackVideoId(url, u).Some?
      ensures !completed ==>
                page == old(page) && currentVideoData == old(currentVideoData) && currentFormats == old(currentFormats)
                && currentTab == old(currentTab) && isMusicDetected == old(isMusicDetected)
      ensures completed ==> LiveModeShown(FallbackVideoId(url, u).value)
      ensures page.loading == old(page.loading)
      ensures baseUrl == old(baseUrl)
    {
      var e := ExtractVideoId(url, u);
      if e.Threw? {
        return false;
      }
      var id := if e.Found? && e.id != "" then e.id else DefaultVideoId;
      assert FallbackVideoId(url, u) == Some(id);
      ShowLiveMode(id);
      completed := true;
    }

    /** The state the live mode leaves for an identifier: its data stored,
        its working catalogue in the tabs, music detected (the fallback
        title says "Live") and so the audio tab, and the results shown. */
    ghost predicate LiveModeShown(id: string)
      reads this
    {
      var fs := GenerateWorkingFormats(id);
      && currentVideoData == Some(FallbackData(id)) && currentFormats == fs
      && isMusicDetected && currentTab == "audio"
      && page.title == FallbackTitle && page.duration == "3:00" && page.idText == id
      && page.videoCards == Cards(fs[..4]) && page.audioCards == Cards(fs[4..])
      && page.formatCount == 8 && page.services == GenerateOnlineServices(id)
      && page.resultsShown && page.toast == LiveModeToast
    }

    /** The body of `useFallbackData` once the identifier is known. */
    method ShowLiveMode(id: string)
      requires id != ""
      modifies this
      ensures LiveModeShown(id)
      ensures page.loading == old(page.loading)
      ensures baseUrl == old(baseUrl)
    {
      NoTitleNoMusic(Some(""));
      ghost var loading := page.loading;
      var data := FallbackData(id);
      var fs := GenerateWorkingFormats(id);
      currentVideoData := Some(data);
      currentFormats := fs;
      DisplayVideoInfo(data.meta);
      assert page.loading == loading;
      FallbackTitleIsMusic();
      WorkingFormatsSplit(id);
      WorkingVideos(id);
      DisplayFormats(data.formats);
      assert page.loading == loading;
      DisplayServices(data.services);
      ShowResults(LiveModeToast);
    }

    /** The state once an answer `data` has been stored and shown on the
        page `before`: the data and its formats are kept, the meta decides
        the music flag (its `isMusic`, or the title and author judged
        music), the tab follows the music flag and the audio formats, and
        the page is `before` with the answer shown. */
    ghost predicate AnswerDisplayed(data: VideoData, title: string, before: Page)
      reads this
    {
      && data.formats.Some?
      && currentVideoData == Some(data) && currentFormats == data.formats.value
      && (data.meta.Some? ==>
            isMusicDetected == (data.meta.value.isMusic || IsLikelyMusic(data.meta.value.title, data.meta.value.author)))
      && currentTab == TabFor(isMusicDetected, OfKind(data.formats.value, "audio"))
      && page == AnswerPage(before, data, isMusicDetected, title)
    }

    /** The success branch of `fetchVideoInfo`: the answer is stored and
        shown through `displayVideoInfo`, `displayFormats` and
        `displayServices`, the results are un-hidden and the toast carries
        the title; without meta the music flag stays as it was. */
    method ShowAnswer(data: VideoData, title: string)
      requires data.formats.Some?
      modifies this
      ensures AnswerDisplayed(data, title, old(page))
      ensures data.meta.None? ==> isMusicDetected == old(isMusicDetected)
      ensures baseUrl == old(baseUrl)
    {
      currentVideoData := Some(data);
      currentFormats := data.formats.GetOr([]);
      DisplayVideoInfo(data.meta);
      DisplayFormats(data.formats);
      DisplayServices(data.services);
      ShowResults(SuccessToast(title));
    }

    /** `fetchVideoInfo` for the text in the input box, the edge function's
        inputs, whether the request gets through (`reachable`) and what the
        `URL` parser makes of the text. Empty or invalid input only raises a
        toast; valid input is requested. */
    method FetchVideoInfo(input: string, reachable: bool, outcome: EdgeApi.OEmbedOutcome, fault: bool, u: UrlObject)
      returns (request: Option<string>)
      modifies this
      ensures baseUrl == old(baseUrl)
      ensures Trim(input) == [] ==>
                request.None? && page == old(page).(toast := EmptyInputToast)
                && currentVideoData == old(currentVideoData) && currentFormats == old(currentFormats)
                && currentTab == old(currentTab) && isMusicDetected == old(isMusicDetected)
      ensures Trim(input) != [] && !IsValidYouTubeUrl(Trim(input)) ==>
                request.None? && page == old(page).(toast := InvalidUrlToast)
                && currentVideoData == old(currentVideoData) && currentFormats == old(currentFormats)
                && currentTab == old(currentTab) && isMusicDetected == old(isMusicDetected)
      ensures IsValidYouTubeUrl(Trim(input)) ==>
                request == Some(InfoRequestUrl(baseUrl, Trim(input)))
                && Requested(Trim(input), reachable, outcome, fault, u,
                             old(currentVideoData), old(currentFormats), old(currentTab), old(isMusicDetected), old(page))
    {
      var url := Trim(input);
      if url == [] {
        page := page.(toast := EmptyInputToast);
        return None;
      }
      if !IsValidYouTubeUrl(url) {
        page := page.(toast := InvalidUrlToast);
        return None;
      }
      var r := RequestInfo(url, reachable, outcome, fault, u);
      request := Some(r);
    }

    /** The state after a request for a valid URL: loading is over; when
        the request gets through and the edge function finds an identifier,
        its envelope is stored and shown; otherwise the live mode is,
        unless the `URL` parser threw, which leaves the sections hidden and
        everything else as it was. Either answer is drawn on the page as the
        request left it: results and error hidden, loading over. */
    ghost predicate Requested(url: string, reachable: bool, outcome: EdgeApi.OEmbedOutcome, fault: bool,
                              u: UrlObject, before: Option<VideoData>, formatsBefore: seq<ClientFormat>,
                              tabBefore: string, musicBefore: bool, pageBefore: Page)
      reads this
    {
      var reset := pageBefore.(resultsShown := false, errorShown := false, loading := false);
      && !page.loading
      && if reachable && EdgeApi.ExtractVideoId(url).Some? then
           EdgeAnswerShown(url, outcome, fault, reset)
         else FallbackSettled(url, u, before, formatsBefore, tabBefore, musicBefore, reset)
    }

    /** The edge function's envelope for the identifier it extracts from
        `url` is stored and shown on the page `before`, with its title in
        the toast; the envelope has no `isMusic`, so the music flag is the
        title and author judged music. */
    ghost predicate EdgeAnswerShown(url: string, outcome: EdgeApi.OEmbedOutcome, fault: bool, before: Page)
      reads this
    {
      var id := EdgeApi.ExtractVideoId(url);
      && id.Some?
      && var e := EdgeApi.GetVideoInfo(id.value, outcome, fault);
      && AnswerDisplayed(FromEnvelope(e), e.meta.title, before)
      && isMusicDetected == IsLikelyMusic(Some(e.meta.title), Some(e.meta.author))
    }

    /** After the live mode: the live mode for the fallback identifier is
        shown (LiveModeShown); or, when the `URL` parser threw, the page is
        `reset` and the data, formats, tab and music flag are as they were. */
    ghost predicate FallbackSettled(url: string, u: UrlObject, before: Option<VideoData>,
                                    formatsBefore: seq<ClientFormat>, tabBefore: string, musicBefore: bool, reset: Page)
      reads this
    {
      var fallback := FallbackVideoId(url, u);
      if fallback.Some? then
        LiveModeShown(fallback.value)
      else
        && page == reset && currentVideoData == before && currentFormats == formatsBefore
        && currentTab == tabBefore && isMusicDetected == musicBefore
    }

    /** The request part of `fetchVideoInfo` for a valid URL: the sections
        are hidden, the request URL is built and the answer handled; a 2xx
        answer with `success` is shown, anything else falls back. */
    method RequestInfo(url: string, reachable: bool, outcome: EdgeApi.OEmbedOutcome, fault: bool, u: UrlObject)
      returns (request: string)
      requires url != ""
      modifies this
      ensures request == InfoRequestUrl(baseUrl, url)
      ensures Requested(url, reachable, outcome, fault, u,
                        old(currentVideoData), old(currentFormats), old(currentTab), old(isMusicDetected), old(page))
      ensures baseUrl == old(baseUrl)
    {
      page := page.(resultsShown := false, errorShown := false, loading := true);
      request := InfoRequestUrl(baseUrl, url);
      var served := false;
      if reachable {
        served := AskEdge(url, outcome, fault);
      }
      if !served {
        page := page.(loading := false);
        var _ := UseFallbackData(url, u);
      }
    }

    /** A request that gets through to the edge function: the answer is 2xx
        with `success` exactly when an identifier is found, and then it is
        stored and shown and loading ends; otherwise nothing changes. */
    method AskEdge(url: string, outcome: EdgeApi.OEmbedOutcome, fault: bool) returns (served: bool)
      requires url != ""
      modifies this
      ensures served <==> EdgeApi.ExtractVideoId(url).Some?
      ensures served ==> EdgeAnswerShown(url, outcome, fault, old(page).(loading := false)) && !page.loading
      ensures !served ==> unchanged(this)
      ensures baseUrl == old(baseUrl)
    {
      var response := EdgeApi.Handle("GET", EdgeApi.Parsed(Some(url)), outcome, fault);
      EdgeApi.HandleBadRequest(Some(url), outcome, fault);
      if EdgeApi.ExtractVideoId(url).Some? {
        EdgeApi.HandleServes(url, outcome, fault);
      }
      served := 200 <= response.status < 300 && response.body.VideoInfo? && response.body.info.success;
      if served {
        // the `finally` of the request ends loading; nothing in between reads it
        page := page.(loading := false);
        ShowAnswer(FromEnvelope(response.body.info), response.body.info.meta.title);
      }
    }

    /** `filterFormats(quality)` on the cards of the current tab (no change
        when the tab has no card container): each card is shown exactly when
        it passes the filter, and the count of shown cards is returned; a
        filter other than `all` that shows nothing raises a toast. */
    method FilterFormats(quality: string) returns (visibleCount: nat)
      modifies this
      ensures currentTab != "video" && currentTab != "audio" ==> visibleCount == 0 && page == old(page)
      ensures currentTab == "video" || currentTab == "audio" ==>
                var before := if currentTab == "video" then old(page.videoCards) else old(page.audioCards);
                var after := if currentTab == "video" then page.videoCards else page.audioCards;
                && visibleCount == CountShown(before, quality)
                && |after| == |before|
                && (forall i :: 0 <= i < |after| ==>
                      after[i] == before[i].(shown := ShouldShow(before[i], quality)))
                && (currentTab == "video" ==> page.audioCards == old(page.audioCards))
                && (currentTab == "audio" ==> page.videoCards == old(page.videoCards))
                && page.toast == (if visibleCount == 0 && quality != "all"
                                  then "Tidak ada format " + quality + " ditemukan." else old(page.toast))
      ensures baseUrl == old(baseUrl) && currentFormats == old(currentFormats) && currentTab == old(currentTab)
      ensures currentVideoData == old(currentVideoData) && isMusicDetected == old(isMusicDetected)
    {
      if currentTab != "video" && currentTab != "audio" {
        return 0;
      }
      var before := if currentTab == "video" then page.videoCards else page.audioCards;
      var cards;
      cards, visibleCount := FilterCards(before, quality);
      if currentTab == "video" {
        page := page.(videoCards := cards);
      } else {
        page := page.(audioCards := cards);
      }
      if visibleCount == 0 && quality != "all" {
        page := page.(toast := "Tidak ada format " + quality + " ditemukan.");
      }
    }

    /** `startDownload`: the toast for music or video, and the plan for the
        window it opens: the link, the safe file name, and whether it is
        music (an audio format or an mp3 container). */
    method StartDownload(url: string, quality: string, container: string, kind: string, timestamp: nat)
      returns (plan: DownloadPlan)
      modifies this
      ensures plan.url == url && plan.filename == DownloadFilename(quality, timestamp, container)
      ensures plan.music <==> kind == "audio" || container == "mp3"
      ensures page == old(page).(toast := PreparingToast(quality, plan.music))
      ensures baseUrl == old(baseUrl) && currentFormats == old(currentFormats) && currentTab == old(currentTab)
      ensures currentVideoData == old(currentVideoData) && isMusicDetected == old(isMusicDetected)
    {
      var music := kind == "audio" || container == "mp3";
      page := page.(toast := PreparingToast(quality, music));
      plan := DownloadPlan(url, DownloadFilename(quality, timestamp, container), music);
    }
  }
}

/** The edge function of `api/download/route.js`: the request handler, video
    identifier extraction, the oEmbed metadata outcome, and the synthesised
    catalogue of download formats with estimated sizes.
    The oEmbed request is not made: its outcome is an input. */
module EdgeApi {
  import opened Wrappers
  import opened Text
  import opened Patterns

  // ---------------------------------------------------------------------------
  // Identifier extraction

  /** The ordered patterns: an identifier after one of the URL prefixes
      anywhere in the input, then the whole input being an identifier. Both
      are case-sensitive. */
  const IdPatterns: seq<IdPattern> := [Embedded(UrlPrefixes, false), Whole(false)]

  /** `extractVideoId(url)`; the loop over the patterns is `Patterns.ExtractFirst`. */
  function ExtractVideoId(url: string): (r: Option<string>)
    ensures r.Some? ==> IsVideoId(r.value)
    ensures r.None? <==> Apply(Embedded(UrlPrefixes, false), url).None? && !IsVideoId(url)
  {
    assert IdPatterns[0] == Embedded(UrlPrefixes, false) && IdPatterns[1] == Whole(false);
    FirstMatch(IdPatterns, url)
  }

  /** For each URL shape: a string holding a prefix followed by eleven
      identifier characters yields those characters when no shape matches
      further left; whatever follows them is ignored. */
  lemma ExtractFromUrl(a: string, k: nat, id: string, z: string)
    requires k < |UrlPrefixes| && IsVideoId(id)
    requires forall j :: 0 <= j < |a| ==>
               CaptureAt(a + UrlPrefixes[k] + id + z, j, UrlPrefixes, false).None?
    ensures ExtractVideoId(a + UrlPrefixes[k] + id + z) == Some(id)
  {
    var s := a + UrlPrefixes[k] + id + z;
    var i := |a|;
    assert s[i..i + |UrlPrefixes[k]|] == UrlPrefixes[k];
    assert s[i + |UrlPrefixes[k]|..i + |UrlPrefixes[k]| + IdLength] == id;
    UrlPrefixedId(s, i, k, false);
  }

  /** The same when the text before the prefix has no `y`, so no shape can
      start inside it. */
  lemma ExtractAfterPlainText(a: string, k: nat, id: string, z: string)
    requires k < |UrlPrefixes| && IsVideoId(id)
    requires Avoids(a, 'y')
    ensures ExtractVideoId(a + UrlPrefixes[k] + id + z) == Some(id)
  {
    var s := a + UrlPrefixes[k] + id + z;
    assert forall j :: 0 <= j < |a| ==> FoldChar(s[j], false) != 'y' by {
      forall j | 0 <= j < |a| ensures FoldChar(s[j], false) != 'y' { assert s[j] == a[j]; }
    }
    NoCaptureWithoutY(s, |a|, false);
    ExtractFromUrl(a, k, id, z);
  }

  /** A bare identifier is returned unchanged. */
  lemma ExtractBareId(s: string)
    requires IsVideoId(s)
    ensures ExtractVideoId(s) == Some(s)
  {
    NoEmbeddedInShort(s, UrlPrefixes, false);
  }

  /** Matching is case-sensitive: an upper-case host is not recognised. */
  lemma ExtractRejectsUpperCaseHost()
    ensures ExtractVideoId("YOUTU.BE/dQw4w9WgXcQ") == None
  {
    var s := "YOUTU.BE/dQw4w9WgXcQ";
    UrlPrefixesStartWithY();
    NoEmbeddedWithout(s, UrlPrefixes, false, 'y');
  }

  /** A short link yields its identifier. */
  lemma ExtractShortLink(url: string)
    requires url == "https://youtu.be/dQw4w9WgXcQ"
    ensures ExtractVideoId(url) == Some("dQw4w9WgXcQ")
  {
    ShortLinkParts();
    ExtractAfterPlainText("https://", 1, "dQw4w9WgXcQ", "");
  }

  /** The pieces of the short link used above. */
  lemma ShortLinkParts()
    ensures Avoids("https://", 'y') && IsVideoId("dQw4w9WgXcQ")
    ensures "https://" + UrlPrefixes[1] + "dQw4w9WgXcQ" + "" == "https://youtu.be/dQw4w9WgXcQ"
  {
  }

  // ---------------------------------------------------------------------------
  // Sizes, URLs and durations

  datatype MediaType = Video | Audio

  /** Seconds used when the duration is falsy. */
  const DefaultDuration: nat := 180

  /** Bits in the unit of a bitrate divided into bits of a megabyte, times
      eight: 8 for Mbps, 8 * 1024 for kbps. */
  function SizeDivisor(kind: MediaType): nat {
    match kind
    case Video => 8
    case Audio => 8 * 1024
  }

  /** `calculateFileSize(durationSeconds, bitrate, type)` in tenths of a MB,
      for a bitrate given in tenths of its unit (`parseFloat(bitrate) * 10`):
      a falsy duration becomes 180; the size `bitrate * duration / divisor`
      is rounded half up to one decimal. */
  function CalculateFileSize(durationSeconds: nat, rateTenths: nat, kind: MediaType): (tenths: nat)
    ensures var d := if durationSeconds == 0 then DefaultDuration else durationSeconds;
            var div := SizeDivisor(kind);
            2 * div * tenths <= 2 * rateTenths * d + div < 2 * div * (tenths + 1)
  {
    var d := if durationSeconds == 0 then DefaultDuration else durationSeconds;
    var div := SizeDivisor(kind);
    (2 * rateTenths * d + div) / (2 * div)
  }

  /** A zero duration is the same as the three-minute default. */
  lemma FileSizeZeroDuration(rateTenths: nat, kind: MediaType)
    ensures CalculateFileSize(0, rateTenths, kind) == CalculateFileSize(DefaultDuration, rateTenths, kind)
  {
  }

  /** The rounding is the nearest tenth, halves up: the rounding bounds
      determine the size, so any value meeting them is it. */
  lemma FileSizeUnique(durationSeconds: nat, rateTenths: nat, kind: MediaType, t: nat)
    requires var d := if durationSeconds == 0 then DefaultDuration else durationSeconds;
             var div := SizeDivisor(kind);
             2 * div * t <= 2 * rateTenths * d + div < 2 * div * (t + 1)
    ensures t == CalculateFileSize(durationSeconds, rateTenths, kind)
  {
    var c := CalculateFileSize(durationSeconds, rateTenths, kind);
    var div := SizeDivisor(kind);
    if t < c {
      MulMonotone(2 * div, t + 1, c);
    } else if t > c {
      MulMonotone(2 * div, c + 1, t);
    }
  }

  lemma MulMonotone(m: nat, a: nat, b: nat)
    requires a <= b
    ensures m * a <= m * b
  {
  }

  /** At 180 seconds, 128 kbps is 2.8 MB and 2 Mbps is 45 MB. */
  lemma FileSizeExamples()
    ensures CalculateFileSize(180, 1280, Audio) == 28
    ensures CalculateFileSize(180, 20, Video) == 450
    ensures TenthsToString(28) == "2.8" && TenthsToString(450) == "45"
  {
  }

  const LoaderBase := "https://loader.to/api/button/?url=https://youtube.com/watch?v="

  /** `generateDownloadUrl(videoId, format, quality)`. The identifier goes in
      raw: the encoded copies the source computes are never used. A format
      other than `mp4` and `mp3` gets the bare base URL; names that a plain
      object inherits (`constructor`, `toString`, ...) are not modelled. */
  function GenerateDownloadUrl(videoId: string, format: string, quality: string): (u: string)
    ensures StartsAt(u, 0, LoaderBase + videoId)
    ensures format == "mp4" ==> u[|LoaderBase + videoId|..] == "&f=mp4&quality=" + quality
    ensures format == "mp3" ==> u[|LoaderBase + videoId|..] == "&f=mp3"
    ensures format != "mp4" && format != "mp3" ==> u == LoaderBase + videoId
  {
    if format == "mp4" then LoaderBase + videoId + "&f=mp4&quality=" + quality
    else if format == "mp3" then LoaderBase + videoId + "&f=mp3"
    else LoaderBase + videoId
  }

  /** The identifier can be read back from every download URL. */
  lemma DownloadUrlCarriesId(videoId: string, format: string, quality: string)
    ensures var u := GenerateDownloadUrl(videoId, format, quality);
            u[|LoaderBase|..|LoaderBase| + |videoId|] == videoId
  {
  }

  /** Distinct identifiers or distinct video qualities give distinct URLs;
      the audio URL does not depend on the quality. */
  lemma DownloadUrlInjective(id1: string, id2: string, q1: string, q2: string)
    requires |id1| == |id2|
    ensures GenerateDownloadUrl(id1, "mp4", q1) == GenerateDownloadUrl(id2, "mp4", q2)
            <==> id1 == id2 && q1 == q2
    ensures GenerateDownloadUrl(id1, "mp3", q1) == GenerateDownloadUrl(id1, "mp3", q2)
  {
    var u1 := GenerateDownloadUrl(id1, "mp4", q1);
    var u2 := GenerateDownloadUrl(id2, "mp4", q2);
    if u1 == u2 {
      DownloadUrlCarriesId(id1, "mp4", q1);
      DownloadUrlCarriesId(id2, "mp4", q2);
      assert u1[|LoaderBase + id1|..] == u2[|LoaderBase + id2|..];
      assert q1 == ("&f=mp4&quality=" + q1)[15..];
      assert q2 == ("&f=mp4&quality=" + q2)[15..];
    }
  }

  /** `formatDuration(seconds)`: `0:00` for a falsy duration, otherwise
      minutes, a colon and the seconds padded to two digits. */
  function FormatDuration(seconds: nat): string {
    if seconds == 0 then "0:00" else Clock(seconds)
  }

  /** The special case for zero agrees with the general rule, and the text
      always reads back as the duration. */
  lemma FormatDurationRoundTrip(seconds: nat)
    ensures FormatDuration(seconds) == Clock(seconds)
    ensures ParseClock(FormatDuration(seconds)) == Some(seconds)
  {
    ClockRoundTrip(seconds);
  }

  lemma FormatDurationExamples()
    ensures FormatDuration(0) == "0:00"
    ensures FormatDuration(180) == "3:00"
    ensures FormatDuration(65) == "1:05"
  {
    ClockOf180();
    ClockOf65();
  }

  lemma ClockOf180()
    ensures Clock(180) == "3:00"
  {
    assert 180 / 60 == 3 && 180 % 60 == 0;
    assert NatToString(3) == "3";
    assert PadStart(NatToString(0), 2, '0') == "00" by {
      assert NatToString(0) == "0";
      assert Repeat('0', 1) == "0";
    }
  }

  lemma ClockOf65()
    ensures Clock(65) == "1:05"
  {
    assert 65 / 60 == 1 && 65 % 60 == 5;
    assert NatToString(1) == "1";
    assert PadStart(NatToString(5), 2, '0') == "05" by {
      assert NatToString(5) == "5";
      assert Repeat('0', 1) == "0";
    }
  }

  // ---------------------------------------------------------------------------
  // The format catalogue

  /** A step of a quality ladder: the quality and resolution labels, the
      descriptive size label (not used in the output) and the bitrate text
      with its value in tenths of the unit. */
  datatype Rung = Rung(quality: string, resolution: string, sizeLabel: string, bitrate: string, rateTenths: nat)

  const VideoLadder: seq<Rung> := [
    Rung("144p", "144p", "Very Low", "0.1", 1),
    Rung("360p", "360p", "Low", "0.5", 5),
    Rung("480p", "480p", "SD", "1", 10),
    Rung("720p", "720p", "HD", "2", 20),
    Rung("1080p", "1080p", "Full HD", "4", 40),
    Rung("4K", "2160p", "Ultra HD", "8", 80)
  ]

  const AudioLadder: seq<Rung> := [
    Rung("64kbps", "Low", "Small", "64", 640),
    Rung("128kbps", "Standard", "Medium", "128", 1280),
    Rung("192kbps", "High", "Large", "192", 1920),
    Rung("320kbps", "Premium", "Extra Large", "320", 3200)
  ]

  /** Each rung's numeric rate is what `parseFloat` reads from its bitrate
      text, and the text is how the number prints. */
  lemma LadderRatesParse()
    ensures forall k :: 0 <= k < |VideoLadder| ==>
              TenthsToString(VideoLadder[k].rateTenths) == VideoLadder[k].bitrate
              && ParseTenths(VideoLadder[k].bitrate) == Some(VideoLadder[k].rateTenths)
    ensures forall k :: 0 <= k < |AudioLadder| ==>
              TenthsToString(AudioLadder[k].rateTenths) == AudioLadder[k].bitrate
              && ParseTenths(AudioLadder[k].bitrate) == Some(AudioLadder[k].rateTenths)
  {
    VideoRateTexts();
    AudioRateTexts();
    forall k | 0 <= k < |VideoLadder| { TenthsRoundTrip(VideoLadder[k].rateTenths); }
    forall k | 0 <= k < |AudioLadder| { TenthsRoundTrip(AudioLadder[k].rateTenths); }
  }

  lemma VideoRateTexts()
    ensures forall k :: 0 <= k < |VideoLadder| ==> TenthsToString(VideoLadder[k].rateTenths) == VideoLadder[k].bitrate
  {
    assert TenthsToString(1) == "0.1";
    assert TenthsToString(5) == "0.5";
    assert TenthsToString(10) == "1";
    assert TenthsToString(20) == "2";
    assert TenthsToString(40) == "4";
    assert TenthsToString(80) == "8";
  }

  lemma AudioRateTexts()
    ensures forall k :: 0 <= k < |AudioLadder| ==> TenthsToString(AudioLadder[k].rateTenths) == AudioLadder[k].bitrate
  {
    assert TenthsToString(640) == "64";
    assert TenthsToString(1280) == "128";
    assert TenthsToString(1920) == "192";
    assert TenthsToString(3200) == "320";
  }

  /** One entry of the response's `formats`. */
  datatype Format = Format(
    kind: MediaType, quality: string, resolution: string, size: string, url: string,
    container: string, hasAudio: bool, bitrate: string, icon: string, color: string)

  function VideoEntry(videoId: string, duration: nat, r: Rung): Format {
    Format(Video, r.quality, r.resolution,
           TenthsToString(CalculateFileSize(duration, r.rateTenths, Video)) + " MB",
           GenerateDownloadUrl(videoId, "mp4", r.resolution), "mp4", true,
           r.bitrate + " Mbps", "fas fa-video", "video")
  }

  function AudioEntry(videoId: string, duration: nat, r: Rung): Format {
    Format(Audio, "MP3 " + r.quality, "Audio",
           TenthsToString(CalculateFileSize(duration, r.rateTenths, Audio)) + " MB",
           GenerateDownloadUrl(videoId, "mp3", r.quality), "mp3", true,
           r.bitrate + " kbps", "fas fa-music", "audio")
  }

  /** The catalogue `generateDownloadFormats` builds: one entry per video
      rung, then one per audio rung, in ladder order. */
  function Catalog(videoId: string, duration: nat): seq<Format> {
    seq(|VideoLadder|, k requires 0 <= k < |VideoLadder| => VideoEntry(videoId, duration, VideoLadder[k]))
    + seq(|AudioLadder|, k requires 0 <= k < |AudioLadder| => AudioEntry(videoId, duration, AudioLadder[k]))
  }

  /** `generateDownloadFormats(videoId, duration)`: two loops pushing onto
      `formats`. */
  method GenerateDownloadFormats(videoId: string, duration: nat) returns (formats: seq<Format>)
    ensures formats == Catalog(videoId, duration)
  {
    formats := [];
    var i := 0;
    while i < |VideoLadder|
      invariant 0 <= i <= |VideoLadder|
      invariant formats == seq(i, k requires 0 <= k < i => VideoEntry(videoId, duration, VideoLadder[k]))
    {
      formats := formats + [VideoEntry(videoId, duration, VideoLadder[i])];
      i := i + 1;
    }
    var j := 0;
    while j < |AudioLadder|
      invariant 0 <= j <= |AudioLadder|
      invariant formats == seq(|VideoLadder|, k requires 0 <= k < |VideoLadder| => VideoEntry(videoId, duration, VideoLadder[k]))
                           + seq(j, k requires 0 <= k < j => AudioEntry(videoId, duration, AudioLadder[k]))
    {
      formats := formats + [AudioEntry(videoId, duration, AudioLadder[j])];
      j := j + 1;
    }
  }

  /** Entry `k` of the catalogue is built from video rung `k`, entry
      `6 + k` from audio rung `k`. */
  lemma CatalogEntries(videoId: string, duration: nat)
    ensures var c := Catalog(videoId, duration);
            && |c| == |VideoLadder| + |AudioLadder| == 10
            && (forall k :: 0 <= k < |VideoLadder| ==> c[k] == VideoEntry(videoId, duration, VideoLadder[k]))
            && (forall k :: 0 <= k < |AudioLadder| ==> c[|VideoLadder| + k] == AudioEntry(videoId, duration, AudioLadder[k]))
  {
  }

  /** Six mp4 videos, one per video rung in order, labelled with the rung's
      quality and resolution (the 2160p rung is labelled 4K), a URL asking
      for that resolution and the bitrate in Mbps. Rates rise along the
      ladder. */
  lemma CatalogVideos(videoId: string, duration: nat)
    ensures var c := Catalog(videoId, duration);
            forall k :: 0 <= k < |VideoLadder| ==>
              && c[k].kind == Video && c[k].container == "mp4" && c[k].hasAudio
              && c[k].quality == VideoLadder[k].quality && c[k].resolution == VideoLadder[k].resolution
              && c[k].url == GenerateDownloadUrl(videoId, "mp4", VideoLadder[k].resolution)
              && c[k].bitrate == VideoLadder[k].bitrate + " Mbps"
    ensures forall k :: 0 <= k < |VideoLadder| - 1 ==> VideoLadder[k].rateTenths < VideoLadder[k + 1].rateTenths
  {
    CatalogEntries(videoId, duration);
  }

  /** Then four mp3 audios, one per audio rung in order, labelled `MP3` and
      the rung's quality, with the bitrate in kbps. Rates rise along the
      ladder. */
  lemma CatalogAudios(videoId: string, duration: nat)
    ensures var c := Catalog(videoId, duration);
            forall k :: 0 <= k < |AudioLadder| ==>
              && c[|VideoLadder| + k].kind == Audio && c[|VideoLadder| + k].container == "mp3"
              && c[|VideoLadder| + k].hasAudio
              && c[|VideoLadder| + k].quality == "MP3 " + AudioLadder[k].quality
              && c[|VideoLadder| + k].resolution == "Audio"
              && c[|VideoLadder| + k].bitrate == AudioLadder[k].bitrate + " kbps"
    ensures forall k :: 0 <= k < |AudioLadder| - 1 ==> AudioLadder[k].rateTenths < AudioLadder[k + 1].rateTenths
  {
    CatalogEntries(videoId, duration);
  }

  /** A zero duration gives the same catalogue as 180 seconds. */
  lemma CatalogZeroDuration(videoId: string)
    ensures Catalog(videoId, 0) == Catalog(videoId, DefaultDuration)
  {
  }

  /** The estimated sizes at 180 seconds, as `${size} MB` prints them. */
  lemma CatalogSizesAt180(videoId: string, duration: nat)
    requires duration == 0 || duration == DefaultDuration
    ensures var c := Catalog(videoId, duration);
            && c[0].size == "2.3 MB" && c[1].size == "11.3 MB" && c[2].size == "22.5 MB"
            && c[3].size == "45 MB" && c[4].size == "90 MB" && c[5].size == "180 MB"
            && c[6].size == "1.4 MB" && c[7].size == "2.8 MB" && c[8].size == "4.2 MB"
            && c[9].size == "7 MB"
  {
    CatalogZeroDuration(videoId);
    CatalogVideoSizes(videoId);
    CatalogAudioSizes(videoId);
  }

  lemma CatalogVideoSizes(videoId: string)
    ensures var c := Catalog(videoId, DefaultDuration);
            && |c| == 10
            && c[0].size == "2.3 MB" && c[1].size == "11.3 MB" && c[2].size == "22.5 MB"
            && c[3].size == "45 MB" && c[4].size == "90 MB" && c[5].size == "180 MB"
  {
    var c := Catalog(videoId, DefaultDuration);
    assert |c| == 10 && c[0].size == "2.3 MB" && c[1].size == "11.3 MB" && c[2].size == "22.5 MB"
           && c[3].size == "45 MB" && c[4].size == "90 MB" && c[5].size == "180 MB" by {
      CatalogEntries(videoId, DefaultDuration);
      VideoSizesAt180();
    }
  }

  lemma CatalogAudioSizes(videoId: string)
    ensures var c := Catalog(videoId, DefaultDuration);
            && |c| == 10
            && c[6].size == "1.4 MB" && c[7].size == "2.8 MB" && c[8].size == "4.2 MB"
            && c[9].size == "7 MB"
  {
    var c := Catalog(videoId, DefaultDuration);
    assert |c| == 10 && c[6].size == "1.4 MB" && c[7].size == "2.8 MB" && c[8].size == "4.2 MB"
           && c[9].size == "7 MB" by {
      CatalogEntries(videoId, DefaultDuration);
      AudioSizesAt180();
    }
  }

  lemma VideoSizesAt180()
    ensures TenthsToString(CalculateFileSize(180, 1, Video)) == "2.3"
    ensures TenthsToString(CalculateFileSize(180, 5, Video)) == "11.3"
    ensures TenthsToString(CalculateFileSize(180, 10, Video)) == "22.5"
    ensures TenthsToString(CalculateFileSize(180, 20, Video)) == "45"
    ensures TenthsToString(CalculateFileSize(180, 40, Video)) == "90"
    ensures TenthsToString(CalculateFileSize(180, 80, Video)) == "180"
  {
    assert CalculateFileSize(180, 1, Video) == 23;
    assert CalculateFileSize(180, 5, Video) == 113;
    assert CalculateFileSize(180, 10, Video) == 225;
    assert CalculateFileSize(180, 20, Video) == 450;
    assert CalculateFileSize(180, 40, Video) == 900;
    assert CalculateFileSize(180, 80, Video) == 1800;
  }

  lemma AudioSizesAt180()
    ensures TenthsToString(CalculateFileSize(180, 640, Audio)) == "1.4"
    ensures TenthsToString(CalculateFileSize(180, 1280, Audio)) == "2.8"
    ensures TenthsToString(CalculateFileSize(180, 1920, Audio)) == "4.2"
    ensures TenthsToString(CalculateFileSize(180, 3200, Audio)) == "7"
  {
    assert CalculateFileSize(180, 640, Audio) == 14;
    assert CalculateFileSize(180, 1280, Audio) == 28;
    assert CalculateFileSize(180, 1920, Audio) == 42;
    assert CalculateFileSize(180, 3200, Audio) == 70;
  }

  /** Every entry's URL carries the identifier; the four audio URLs are the
      same URL, and the six video URLs are pairwise distinct. */
  lemma CatalogUrls(videoId: string, duration: nat)
    ensures var c := Catalog(videoId, duration);
            && (forall k :: 0 <= k < |c| ==> StartsAt(c[k].url, 0, LoaderBase + videoId))
            && (forall k :: 6 <= k < 10 ==> c[k].url == c[6].url)
            && (forall j, k :: 0 <= j < k < 6 ==> c[j].url != c[k].url)
  {
    var c := Catalog(videoId, duration);
    assert forall j, k :: 0 <= j < k < 6 ==> c[j].url != c[k].url by {
      forall j, k | 0 <= j < k < 6 ensures c[j].url != c[k].url {
        DownloadUrlInjective(videoId, videoId, VideoLadder[j].resolution, VideoLadder[k].resolution);
      }
    }
  }

  // ---------------------------------------------------------------------------
  // Metadata and the response envelope

  /** What the oEmbed request gave: nothing (network error, timeout, error
      status), or a body whose `title` and `author_name` may be missing. */
  datatype OEmbedOutcome =
    | Unanswered
    | Answered(title: Option<string>, authorName: Option<string>)

  datatype Metadata = Metadata(title: Option<string>, author: Option<string>, duration: nat)

  /** `fetchVideoMetadata(videoId)` given the request's outcome. */
  function FetchVideoMetadata(videoId: string, outcome: OEmbedOutcome): Metadata {
    match outcome
    case Unanswered => Metadata(Some("YouTube Video " + videoId), Some("YouTube Creator"), DefaultDuration)
    case Answered(title, author) => Metadata(title, author, 0)
  }

  datatype Meta = Meta(
    title: string, thumbnail: string, thumbnailSd: string, thumbnailHq: Option<string>,
    videoId: string, duration: nat, durationFormatted: string, author: string)

  datatype Service = Service(name: string, url: string)

  datatype Envelope = Envelope(
    success: bool, meta: Meta, formats: seq<Format>,
    downloadServices: Option<seq<Service>>, note: Option<string>)

  function Thumbnail(videoId: string, name: string): string {
    "https://img.youtube.com/vi/" + videoId + "/" + name + ".jpg"
  }

  /** `getFallbackData(videoId)`: fixed metadata, two fixed formats and a note. */
  function GetFallbackData(videoId: string): Envelope {
    Envelope(
      true,
      Meta("YouTube Video", Thumbnail(videoId, "maxresdefault"), Thumbnail(videoId, "sddefault"), None,
           videoId, 180, "3:00", "YouTube Creator"),
      [ Format(Video, "720p", "720p", "25 MB", LoaderBase + videoId + "&f=mp4&quality=720",
               "mp4", true, "2 Mbps", "fas fa-video", "video"),
        Format(Audio, "MP3 128kbps", "Audio", "5 MB", LoaderBase + videoId + "&f=mp3",
               "mp3", true, "128 kbps", "fas fa-music", "audio") ],
      None,
      Some("Menggunakan fallback data. Service online akan digunakan untuk download."))
  }

  /** `getVideoInfo(videoId)`. `fault` stands for an exception thrown inside
      its `try` after the metadata step, which selects the fallback data. */
  function GetVideoInfo(videoId: string, outcome: OEmbedOutcome, fault: bool): Envelope {
    if fault then GetFallbackData(videoId)
    else
      var m := FetchVideoMetadata(videoId, outcome);
      Envelope(
        true,
        Meta(OrElse(m.title, "YouTube Video " + videoId),
             Thumbnail(videoId, "maxresdefault"), Thumbnail(videoId, "sddefault"),
             Some(Thumbnail(videoId, "hqdefault")),
             videoId, m.duration, FormatDuration(m.duration),
             OrElse(m.author, "YouTube Creator")),
        Catalog(videoId, m.duration),
        Some([ Service("OnlineConvert", "https://www.onlineconverter.com/youtube-to-mp4?id=" + videoId),
               Service("Y2Mate", "https://www.y2mate.com/youtube/" + videoId) ]),
        None)
  }

  /** Without an oEmbed answer: placeholder title and author, a 180-second
      duration shown as `3:00`, and the 180-second catalogue. */
  lemma EnvelopeWithoutMetadata(videoId: string, outcome: OEmbedOutcome)
    requires outcome.Unanswered?
    ensures var e := GetVideoInfo(videoId, outcome, false);
            && e.success && e.note.None?
            && e.meta.title == "YouTube Video " + videoId && e.meta.author == "YouTube Creator"
            && e.meta.duration == 180 && e.meta.durationFormatted == "3:00"
            && e.formats == Catalog(videoId, 180)
  {
    var m := FetchVideoMetadata(videoId, outcome);
    assert m.duration == 180;
    assert FormatDuration(180) == "3:00" by { ClockOf180(); }
    assert |"YouTube Video " + videoId| > 0;
  }

  /** With an oEmbed answer: duration 0 shown as `0:00`, the answer's title
      and author with placeholders for missing ones, and still the
      180-second catalogue. */
  lemma EnvelopeWithMetadata(videoId: string, title: Option<string>, author: Option<string>)
    ensures var e := GetVideoInfo(videoId, Answered(title, author), false);
            && e.success && e.note.None?
            && e.meta.duration == 0 && e.meta.durationFormatted == "0:00"
            && e.meta.title == (if Truthy(title) then title.value else "YouTube Video " + videoId)
            && e.meta.author == (if Truthy(author) then author.value else "YouTube Creator")
            && e.formats == Catalog(videoId, 180)
  {
    CatalogZeroDuration(videoId);
  }

  /** When assembling the envelope fails: success anyway, exactly two formats
      (720p mp4 and MP3 128kbps), no hq thumbnail or services, and a note. */
  lemma EnvelopeOnFault(videoId: string, outcome: OEmbedOutcome)
    ensures var e := GetVideoInfo(videoId, outcome, true);
            && e.success && e.note.Some?
            && |e.formats| == 2
            && e.formats[0].kind == Video && e.formats[0].quality == "720p" && e.formats[0].container == "mp4"
            && e.formats[1].kind == Audio && e.formats[1].quality == "MP3 128kbps" && e.formats[1].container == "mp3"
            && e.meta.duration == 180 && e.meta.durationFormatted == FormatDuration(180)
            && e.meta.thumbnailHq.None? && e.downloadServices.None?
  {
    FormatDurationExamples();
  }

  /** The shape of the envelopes `getVideoInfo` builds: its videos before
      its audios, six and four, or one and one when assembling failed; a
      title and an author; two services, or none when assembling failed. */
  predicate Shaped(e: Envelope, fault: bool) {
    var n := if fault then 1 else 6;
    && |e.formats| == (if fault then 2 else 10)
    && (forall i :: 0 <= i < n ==> e.formats[i].kind == Video)
    && (forall i :: n <= i < |e.formats| ==> e.formats[i].kind == Audio)
    && e.meta.title != "" && e.meta.author != ""
    && (e.downloadServices.None? <==> fault)
    && (!fault ==> |e.downloadServices.value| == 2)
  }

  /** Every envelope has that shape. */
  lemma EnvelopeShaped(videoId: string, outcome: OEmbedOutcome, fault: bool)
    ensures Shaped(GetVideoInfo(videoId, outcome, fault), fault)
  {
    EnvelopeKinds(videoId, outcome, fault);
    EnvelopeTexts(videoId, outcome, fault);
  }

  /** Every envelope lists its videos before its audios: six and four, or
      one and one when assembling it failed. */
  lemma EnvelopeKinds(videoId: string, outcome: OEmbedOutcome, fault: bool)
    ensures var fs := GetVideoInfo(videoId, outcome, fault).formats;
            var n := if fault then 1 else 6;
            && |fs| == (if fault then 2 else 10)
            && (forall i :: 0 <= i < n ==> fs[i].kind == Video)
            && (forall i :: n <= i < |fs| ==> fs[i].kind == Audio)
  {
    var fs := GetVideoInfo(videoId, outcome, fault).formats;
    if fault {
      assert |fs| == 2 && fs[0].kind == Video && fs[1].kind == Audio by { EnvelopeOnFault(videoId, outcome); }
    } else {
      var d := FetchVideoMetadata(videoId, outcome).duration;
      assert fs == Catalog(videoId, d);
      CatalogKinds(videoId, d);
    }
  }

  /** Every envelope has a title and an author; it lists two services,
      except when assembling it failed, where it lists none. */
  lemma EnvelopeTexts(videoId: string, outcome: OEmbedOutcome, fault: bool)
    ensures var e := GetVideoInfo(videoId, outcome, fault);
            && e.meta.title != "" && e.meta.author != ""
            && (e.downloadServices.None? <==> fault)
            && (!fault ==> |e.downloadServices.value| == 2)
  {
    if !fault {
      assert |"YouTube Video " + videoId| > 0;
    }
  }

  /** The catalogue lists six videos, then four audios. */
  lemma CatalogKinds(videoId: string, duration: nat)
    ensures var c := Catalog(videoId, duration);
            && |c| == 10
            && (forall i :: 0 <= i < 6 ==> c[i].kind == Video)
            && (forall i :: 6 <= i < 10 ==> c[i].kind == Audio)
  {
    var videos := seq(|VideoLadder|, k requires 0 <= k < |VideoLadder| => VideoEntry(videoId, duration, VideoLadder[k]));
    var audios := seq(|AudioLadder|, k requires 0 <= k < |AudioLadder| => AudioEntry(videoId, duration, AudioLadder[k]));
    assert |videos| == 6 && |audios| == 4;
    KindsOfJoin(videos, audios);
  }

  /** Videos joined to audios keep their kinds at their places. */
  lemma KindsOfJoin(videos: seq<Format>, audios: seq<Format>)
    requires forall i :: 0 <= i < |videos| ==> videos[i].kind == Video
    requires forall i :: 0 <= i < |audios| ==> audios[i].kind == Audio
    ensures forall i :: 0 <= i < |videos| ==> (videos + audios)[i].kind == Video
    ensures forall i :: |videos| <= i < |videos| + |audios| ==> (videos + audios)[i].kind == Audio
  {
    forall i | |videos| <= i < |videos| + |audios|
      ensures (videos + audios)[i].kind == Audio
    {
      assert (videos + audios)[i] == audios[i - |videos|];
    }
  }

  // ---------------------------------------------------------------------------
  // The handler

  /** The request URL as `new URL(request.url)` sees it: not parseable (it
      throws with a message), or its `url` search parameter. */
  datatype Target = Unparsable(message: string) | Parsed(urlParam: Option<string>)

  datatype Body =
    | NoBody
    | MethodNotAllowed
    | Invalid(error: string)
    | ServerError(error: string, details: string)
    | VideoInfo(info: Envelope)

  datatype Response = Response(status: nat, allowMethods: Option<string>, body: Body)

  const EmptyUrlMessage := "URL YouTube tidak boleh kosong"
  const BadUrlMessage := "URL YouTube tidak valid. Pastikan URL benar."
  const ServerErrorMessage := "Terjadi kesalahan server. Coba lagi nanti."

  /** `handler(request)`. */
  function Handle(verb: string, target: Target, outcome: OEmbedOutcome, fault: bool): Response {
    if verb == "OPTIONS" then Response(200, Some("GET, OPTIONS"), NoBody)
    else if verb != "GET" then Response(405, None, MethodNotAllowed)
    else match target
      case Unparsable(message) => Response(500, None, ServerError(ServerErrorMessage, message))
      case Parsed(param) =>
        if !Truthy(param) then Response(400, None, Invalid(EmptyUrlMessage))
        else match ExtractVideoId(param.value)
          case None => Response(400, None, Invalid(BadUrlMessage))
          case Some(id) => Response(200, None, VideoInfo(GetVideoInfo(id, outcome, fault)))
  }

  /** Preflight requests get 200 with the allowed methods and no body;
      other methods but GET get 405. */
  lemma HandleNonGet(verb: string, target: Target, outcome: OEmbedOutcome, fault: bool)
    requires verb != "GET"
    ensures var r := Handle(verb, target, outcome, fault);
            if verb == "OPTIONS" then r == Response(200, Some("GET, OPTIONS"), NoBody)
            else r == Response(405, None, MethodNotAllowed)
  {
  }

  /** A request URL that cannot be parsed escapes to the outer `catch`: 500
      with the parser's message as details. */
  lemma HandleUnparsable(message: string, outcome: OEmbedOutcome, fault: bool)
    ensures Handle("GET", Unparsable(message), outcome, fault)
            == Response(500, None, ServerError(ServerErrorMessage, message))
  {
  }

  /** A GET with a parsed URL is answered 400 exactly when `url` is empty or
      names no video, with the message for the case. */
  lemma HandleBadRequest(param: Option<string>, outcome: OEmbedOutcome, fault: bool)
    ensures var r := Handle("GET", Parsed(param), outcome, fault);
            && (r.status == 400 <==> !Truthy(param) || ExtractVideoId(param.value).None?)
            && (!Truthy(param) ==> r.body == Invalid(EmptyUrlMessage))
            && (Truthy(param) && ExtractVideoId(param.value).None? ==> r.body == Invalid(BadUrlMessage))
  {
  }

  /** Otherwise the answer is 200 with the envelope for the extracted
      identifier, whatever the metadata source and the envelope step do. */
  lemma HandleServes(url: string, outcome: OEmbedOutcome, fault: bool)
    requires url != "" && ExtractVideoId(url).Some?
    ensures var r := Handle("GET", Parsed(Some(url)), outcome, fault);
            && r.status == 200 && r.body.VideoInfo? && r.body.info.success
            && r.body == VideoInfo(GetVideoInfo(ExtractVideoId(url).value, outcome, fault))
  {
    var info := GetVideoInfo(ExtractVideoId(url).value, outcome, fault);
    assert info.success by { EnvelopeSucceeds(ExtractVideoId(url).value, outcome, fault); }
  }

  /** `getVideoInfo` always reports success, fault or not. */
  lemma EnvelopeSucceeds(videoId: string, outcome: OEmbedOutcome, fault: bool)
    ensures GetVideoInfo(videoId, outcome, fault).success
  {
    if fault {
      assert GetVideoInfo(videoId, outcome, fault) == GetFallbackData(videoId);
    }
  }

  /** A short link gives the envelope for its identifier with ten formats. */
  lemma HandleShortLink(outcome: OEmbedOutcome)
    ensures var r := Handle("GET", Parsed(Some("https://youtu.be/dQw4w9WgXcQ")), outcome, false);
            && r.status == 200 && r.body.VideoInfo?
            && r.body.info.meta.videoId == "dQw4w9WgXcQ"
            && |r.body.info.formats| == 10
  {
    ExtractShortLink("https://youtu.be/dQw4w9WgXcQ");
    HandleServes("https://youtu.be/dQw4w9WgXcQ", outcome, false);
    CatalogEntries("dQw4w9WgXcQ", FetchVideoMetadata("dQw4w9WgXcQ", outcome).duration);
  }
}

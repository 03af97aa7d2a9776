/** The Express server of `server.js`: the `/api/download` endpoint, which
    asks the a2zconverter service about a video and normalises its answer,
    and the guard of the `/api/proxy` endpoint. Both upstream requests are
    inputs: their outcomes are parameters, not calls. */
module Server {
  import opened Wrappers
  import opened Text

  // ---------------------------------------------------------------------------
  // Upstream answer

  /** One record of the upstream `formats` array; a field the record lacks
      is `None`. `approxDurationMs` is taken as a number of milliseconds. */
  datatype UpstreamFormat = UpstreamFormat(
    qualityLabel: Option<string>, audioQuality: Option<string>, height: Option<nat>,
    approxDurationMs: Option<nat>, url: Option<string>, container: Option<string>,
    hasAudio: Option<bool>, bitrate: Option<string>)

  datatype UpstreamMeta = UpstreamMeta(title: Option<string>, thumbnail: Option<string>, duration: Option<nat>)

  /** What the a2zconverter request gave: an error (network, error status);
      a body that throws as the handler reads it (a null body, a truthy
      `formats` that is not an array, a null record, or a record without
      `qualityLabel` whose truthy `audioQuality` is not a string); or a
      readable body whose `meta` and `formats` may be missing. */
  datatype Upstream =
    | Unreachable
    | Malformed
    | Answered(meta: Option<UpstreamMeta>, formats: Option<seq<UpstreamFormat>>)

  // ---------------------------------------------------------------------------
  // Normalised entries

  /** One entry of the response's `formats`: a video entry carries `hasAudio`,
      an audio entry carries `bitrate`. A missing upstream `url` stays missing. */
  datatype Entry =
    | VideoEntry(quality: string, resolution: string, size: string, url: Option<string>,
                 container: string, hasAudio: bool)
    | AudioEntry(quality: string, resolution: string, size: string, url: Option<string>,
                 container: string, bitrate: string)

  /** `Math.round(ms / 1000 * 0.5)`: whole megabytes, the nearest to
      `ms / 2000`, halves rounded up. */
  function VideoMegabytes(ms: nat): (mb: nat)
    ensures 2000 * mb <= ms + 1000 < 2000 * (mb + 1)
  {
    (ms + 1000) / 2000
  }

  /** `Math.round(ms / 1000 * 0.1)`: whole megabytes, the nearest to
      `ms / 10000`, halves rounded up. */
  function AudioMegabytes(ms: nat): (mb: nat)
    ensures 10000 * mb <= ms + 5000 < 10000 * (mb + 1)
  {
    (ms + 5000) / 10000
  }

  /** The `size` text: `'N/A'` for a falsy duration, otherwise the whole
      megabytes and ` MB`. */
  function SizeText(ms: Option<nat>, video: bool): string {
    if ms.None? || ms.value == 0 then "N/A"
    else NatToString(if video then VideoMegabytes(ms.value) else AudioMegabytes(ms.value)) + " MB"
  }

  /** `format.height + 'p'`; a missing height prints as `undefined`. */
  function HeightText(h: Option<nat>): string {
    match h
    case Some(n) => NatToString(n) + "p"
    case None => "undefinedp"
  }

  const AudioQualityPrefix := "AUDIO_QUALITY_"

  /** Whether the loop keeps a record: it has a truthy `qualityLabel` or a
      truthy `audioQuality`. */
  predicate Kept(f: UpstreamFormat) {
    Truthy(f.qualityLabel) || Truthy(f.audioQuality)
  }

  /** The body of the `forEach` callback for one record: a video entry when
      `qualityLabel` is truthy, else an audio entry when `audioQuality` is
      truthy, else nothing. */
  function Normalise(f: UpstreamFormat): (e: Option<Entry>)
    ensures e.Some? <==> Kept(f)
  {
    if Truthy(f.qualityLabel) then
      Some(VideoEntry(f.qualityLabel.value, HeightText(f.height), SizeText(f.approxDurationMs, true),
                      f.url, OrElse(f.container, "mp4"), f.hasAudio == Some(true)))
    else if Truthy(f.audioQuality) then
      Some(AudioEntry("Audio", ReplaceFirst(f.audioQuality.value, AudioQualityPrefix, ""),
                      SizeText(f.approxDurationMs, false), f.url, OrElse(f.container, "mp3"),
                      OrElse(f.bitrate, "128kbps")))
    else None
  }

  /** The list the loop builds: the normalised records, in upstream order,
      with the dropped ones left out. */
  function NormaliseAll(fs: seq<UpstreamFormat>): seq<Entry>
    decreases |fs|
  {
    if fs == [] then []
    else
      var last := fs[|fs| - 1];
      NormaliseAll(fs[..|fs| - 1]) + (if Kept(last) then [Normalise(last).value] else [])
  }

  // ---------------------------------------------------------------------------
  // Properties of the normalisation

  /** A record with a truthy `qualityLabel` becomes a video entry, even when
      it also has an `audioQuality`: resolution from the height, container
      `mp4` unless given, `hasAudio` false unless given as true. */
  lemma NormaliseVideo(f: UpstreamFormat)
    requires Truthy(f.qualityLabel)
    ensures var e := Normalise(f).value;
            && e.VideoEntry? && e.quality == f.qualityLabel.value && e.url == f.url
            && e.resolution == HeightText(f.height)
            && e.container == (if Truthy(f.container) then f.container.value else "mp4")
            && e.hasAudio == (f.hasAudio == Some(true))
            && e.size == SizeText(f.approxDurationMs, true)
  {
  }

  /** A record with only a truthy `audioQuality` becomes an audio entry of
      quality `Audio`, its resolution the quality without its first
      `AUDIO_QUALITY_`, container `mp3` and bitrate `128kbps` unless given. */
  lemma NormaliseAudio(f: UpstreamFormat, rest: string)
    requires !Truthy(f.qualityLabel) && f.audioQuality == Some(AudioQualityPrefix + rest)
    ensures var e := Normalise(f).value;
            && e.AudioEntry? && e.quality == "Audio" && e.url == f.url
            && e.resolution == rest
            && e.container == (if Truthy(f.container) then f.container.value else "mp3")
            && e.bitrate == (if Truthy(f.bitrate) then f.bitrate.value else "128kbps")
            && e.size == SizeText(f.approxDurationMs, false)
  {
    ReplaceLeadingOccurrence(AudioQualityPrefix, rest);
  }

  /** Sizes: `N/A` without a duration; otherwise 0.5 MB per second of video
      and 0.1 MB per second of audio, rounded. A three-minute video is 90 MB
      and a three-minute audio 18 MB. */
  lemma SizeExamples()
    ensures SizeText(None, true) == "N/A" && SizeText(Some(0), false) == "N/A"
    ensures VideoMegabytes(180000) == 90 && AudioMegabytes(180000) == 18
  {
  }

  /** The normalisation distributes over concatenation: each record is
      handled on its own, in order. */
  lemma {:induction false} NormaliseAllConcat(a: seq<UpstreamFormat>, b: seq<UpstreamFormat>)
    ensures NormaliseAll(a + b) == NormaliseAll(a) + NormaliseAll(b)
    decreases |b|
  {
    if b == [] {
      assert a + b == a;
    } else {
      var c := a + b;
      assert c[..|c| - 1] == a + b[..|b| - 1];
      assert c[|c| - 1] == b[|b| - 1];
      NormaliseAllConcat(a, b[..|b| - 1]);
    }
  }

  /** The output is an order-preserving filter-map of the input: there are
      increasing positions `idx` of kept records, every kept record among
      them, and entry `k` is the normalisation of record `idx[k]`. */
  lemma {:induction false} NormaliseAllIsFilterMap(fs: seq<UpstreamFormat>) returns (idx: seq<nat>)
    ensures |idx| == |NormaliseAll(fs)|
    ensures forall k :: 0 <= k < |idx| ==> idx[k] < |fs| && Kept(fs[idx[k]])
                                           && NormaliseAll(fs)[k] == Normalise(fs[idx[k]]).value
    ensures forall j, k :: 0 <= j < k < |idx| ==> idx[j] < idx[k]
    ensures forall i :: 0 <= i < |fs| && Kept(fs[i]) ==> i in idx
    decreases |fs|
  {
    if fs == [] {
      idx := [];
    } else {
      var init := fs[..|fs| - 1];
      var prev := NormaliseAllIsFilterMap(init);
      var last := fs[|fs| - 1];
      assert forall i :: 0 <= i < |init| ==> init[i] == fs[i];
      if Kept(last) {
        idx := prev + [|fs| - 1];
      } else {
        idx := prev;
      }
    }
  }

  /** The number of kept records. */
  function KeptCount(fs: seq<UpstreamFormat>): nat
    decreases |fs|
  {
    if fs == [] then 0 else KeptCount(fs[..|fs| - 1]) + (if Kept(fs[|fs| - 1]) then 1 else 0)
  }

  /** One entry per kept record, so nothing is dropped unless it has neither
      label, and an input without such records gives an empty list. */
  lemma {:induction false} NormaliseAllLength(fs: seq<UpstreamFormat>)
    ensures |NormaliseAll(fs)| == KeptCount(fs) <= |fs|
    ensures NormaliseAll(fs) == [] <==> forall i :: 0 <= i < |fs| ==> !Kept(fs[i])
    decreases |fs|
  {
    if fs != [] {
      var init := fs[..|fs| - 1];
      NormaliseAllLength(init);
      assert forall i :: 0 <= i < |init| ==> init[i] == fs[i];
    }
  }

  // ---------------------------------------------------------------------------
  // The `/api/download` endpoint

  datatype Body =
    /** `{ error: true, message }` */
    | ErrorJson(message: string)
    /** `formattedData` */
    | Formatted(success: bool, title: string, thumbnail: string, duration: nat, formats: seq<Entry>)
    /** A plain-text body. */
    | Plain(text: string)
    /** The upstream bytes, relayed with `Content-Disposition: attachment`. */
    | Attachment(bytes: seq<byte>)

  newtype byte = x: int | 0 <= x < 256

  datatype Reply = Reply(status: nat, body: Body)

  const EmptyUrlMessage := "URL YouTube tidak boleh kosong"
  const UpstreamFailedMessage := "Gagal mengambil data video. Coba lagi nanti."

  /** The handler of `GET /api/download` for the `url` query parameter and
      the a2zconverter outcome: 400 without a url, 500 when the upstream
      request fails or its body cannot be read (the `catch`), otherwise 200
      with the upstream answer normalised. */
  method Download(urlParam: Option<string>, upstream: Upstream) returns (r: Reply)
    ensures !Truthy(urlParam) ==> r == Reply(400, ErrorJson(EmptyUrlMessage))
    ensures Truthy(urlParam) && !upstream.Answered? ==> r == Reply(500, ErrorJson(UpstreamFailedMessage))
    ensures Truthy(urlParam) && upstream.Answered? ==>
              var m := upstream.meta.GetOr(UpstreamMeta(None, None, None));
              r == Reply(200, Formatted(true, OrElse(m.title, "Video YouTube"), OrElse(m.thumbnail, ""),
                                        m.duration.GetOr(0), NormaliseAll(upstream.formats.GetOr([]))))
  {
    if !Truthy(urlParam) {
      return Reply(400, ErrorJson(EmptyUrlMessage));
    }
    if !upstream.Answered? {
      return Reply(500, ErrorJson(UpstreamFailedMessage));
    }
    var m := upstream.meta.GetOr(UpstreamMeta(None, None, None));
    var formats: seq<Entry> := [];
    if upstream.formats.Some? {
      var fs := upstream.formats.value;
      var i := 0;
      while i < |fs|
        invariant 0 <= i <= |fs|
        invariant formats == NormaliseAll(fs[..i])
      {
        assert fs[..i + 1][..i] == fs[..i];
        var e := Normalise(fs[i]);
        if e.Some? {
          formats := formats + [e.value];
        }
        i := i + 1;
      }
      assert fs[..|fs|] == fs;
    }
    r := Reply(200, Formatted(true, OrElse(m.title, "Video YouTube"), OrElse(m.thumbnail, ""),
                              m.duration.GetOr(0), formats));
  }

  // ---------------------------------------------------------------------------
  // The `/api/proxy` endpoint

  /** What the streaming request to the file URL gave: an error, or the body
      bytes. */
  datatype FileSource = Refused | Streamed(bytes: seq<byte>)

  /** The handler of `GET /api/proxy`: 400 without a url (the file source is
      then never asked), 500 when the request fails, otherwise the bytes as
      an attachment. */
  function Proxy(urlParam: Option<string>, source: FileSource): (r: Reply)
    ensures !Truthy(urlParam) ==> r == Reply(400, Plain("URL tidak valid"))
    ensures Truthy(urlParam) && source.Refused? ==> r == Reply(500, Plain("Download gagal"))
    ensures Truthy(urlParam) && source.Streamed? ==>
              r.status == 200 && r.body.Attachment? && r.body.bytes == source.bytes
  {
    if !Truthy(urlParam) then Reply(400, Plain("URL tidak valid"))
    else match source
      case Refused => Reply(500, Plain("Download gagal"))
      case Streamed(bytes) => Reply(200, Attachment(bytes))
  }
}

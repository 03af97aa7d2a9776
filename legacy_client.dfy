/** The legacy page script `script.js` (class `VYTDownloader`), the client of
    the Express server of `server.js`. The object's own fields are the
    fields of a class; the page elements it writes are one `Page` value that
    its methods replace. The server is reached through `Server.Download`;
    whether the server answers at all is an input. */
module LegacyClient {
  import opened Wrappers
  import opened Text
  import opened Patterns
  import Server

  // ---------------------------------------------------------------------------
  // URL validation: `isValidYouTubeUrl`, three case-sensitive patterns

  /** `^(https?://)?(www\.)?(youtube\.com|youtu\.be)/.+`,
      `youtube\.com/watch\?v=[\w-]+` and `youtu\.be/[\w-]+`. A `[\w-]+` run
      is satisfied by its first character, so one identifier character is
      all the last two demand. */
  const ValidityPatterns: seq<UrlPattern> :=
    [HostPath(false), LiteralThenIds("youtube.com/watch?v=", 1, false),
     LiteralThenIds("youtu.be/", 1, false)]

  predicate IsValidYouTubeUrl(url: string) {
    AnyTest(ValidityPatterns, url)
  }

  /** Any input that starts like a YouTube address and has a path is valid. */
  lemma AcceptsHostPath(url: string, a: nat, w: nat, h: nat)
    requires a < |Schemes| && w < |WwwParts| && h < |Hosts|
    requires HeadThenPath(url, Schemes[a] + WwwParts[w] + Hosts[h] + "/", false)
    ensures IsValidYouTubeUrl(url)
  {
    HostPathAccepts(url, false, a, w, h);
    assert Test(ValidityPatterns[0], url);
  }

  /** `youtu.be/` and one identifier character anywhere in the text suffice:
      the address need not start there. */
  lemma AcceptsShortLinkAnywhere(p: string, c: char, z: string)
    requires IsIdChar(c)
    ensures IsValidYouTubeUrl(p + "youtu.be/" + [c] + z)
  {
    LiteralThenIdsAccepts(p, "youtu.be/", [c], z, false);
    assert Test(ValidityPatterns[2], p + "youtu.be/" + [c] + z);
  }

  /** The same for `youtube.com/watch?v=`. */
  lemma AcceptsWatchAnywhere(p: string, c: char, z: string)
    requires IsIdChar(c)
    ensures IsValidYouTubeUrl(p + "youtube.com/watch?v=" + [c] + z)
  {
    LiteralThenIdsAccepts(p, "youtube.com/watch?v=", [c], z, false);
    assert Test(ValidityPatterns[1], p + "youtube.com/watch?v=" + [c] + z);
  }

  /** A valid input contains `youtu` in lower case: the patterns have no `/i`. */
  lemma ValidMentionsYoutu(url: string)
    ensures IsValidYouTubeUrl(url) ==> Contains(url, "youtu")
  {
    assert "youtube.com/watch?v="[..5] == "youtu";
    assert "youtu.be/"[..5] == "youtu";
    assert forall k :: 0 <= k < |ValidityPatterns| ==>
      MentionsYoutu(ValidityPatterns[k]) && !ValidityPatterns[k].fold;
    AnyTestNeedsYoutu(ValidityPatterns, url, false);
  }

  /** An address written in capitals is refused. */
  lemma RejectsUpperCase()
    ensures !IsValidYouTubeUrl("HTTPS://YOUTU.BE/dQw4w9WgXcQ")
  {
    var url := "HTTPS://YOUTU.BE/dQw4w9WgXcQ";
    assert Avoids(url, 'y');
    assert "youtu"[0] == 'y';
    MissingCharNotContained(url, "youtu", 0);
    ValidMentionsYoutu(url);
  }

  // ---------------------------------------------------------------------------
  // Requests the page makes

  const DefaultBaseUrl := "http://localhost:3000"

  /** The `href` of the link of `downloadFile`. A format without a `url`
      is interpolated as the text `undefined`. */
  function ProxyRequestUrl(baseUrl: string, url: Option<string>): string {
    baseUrl + "/api/proxy?url=" + EncodeURIComponent(UrlText(url))
  }

  /** Whatever the address, the request carries it as the single value of the
      `url` parameter: the encoded text holds no separator, and an address
      made of unreserved characters is sent as it is. */
  lemma InfoRequestCarriesOneValue(baseUrl: string, url: string)
    ensures var v := InfoRequestUrl(baseUrl, url)[|baseUrl| + 18..];
            v == EncodeURIComponent(url) &&
            forall i :: 0 <= i < |v| ==> v[i] !in "&=#+?/ "
    ensures (forall i :: 0 <= i < |url| ==> IsUnreserved(url[i])) ==>
              InfoRequestUrl(baseUrl, url) == baseUrl + "/api/download?url=" + url
  {
    assert |"/api/download?url="| == 18;
    EncodedIsOneQueryValue(url);
    if forall i :: 0 <= i < |url| ==> IsUnreserved(url[i]) {
      EncodeUnreserved(url);
    }
  }

  /** The same for the proxy link; a format without a url sends the text
      `undefined`, which the proxy takes for an address (no 400). */
  lemma ProxyRequestCarriesOneValue(baseUrl: string, url: Option<string>, source: Server.FileSource)
    ensures var v := ProxyRequestUrl(baseUrl, url)[|baseUrl| + 15..];
            v == EncodeURIComponent(UrlText(url)) &&
            forall i :: 0 <= i < |v| ==> v[i] !in "&=#+?/ "
    ensures url.None? ==> Server.Proxy(Some(UrlText(url)), source).status != 400
  {
    assert |"/api/proxy?url="| == 15;
    EncodedIsOneQueryValue(UrlText(url));
  }

  // ---------------------------------------------------------------------------
  // Format cards

  /** A rendered card: `data-quality` is the format's resolution; `shown` is
      its `display` style (a card starts shown). */
  datatype Card = Card(dataQuality: string, format: Server.Entry, shown: bool)

  function CardOf(f: Server.Entry): (c: Card)
    ensures c.format == f && c.shown
  {
    Card(f.resolution, f, true)
  }

  /** The download filename `${quality}_${resolution}.${container}`. */
  function Filename(f: Server.Entry): string {
    f.quality + "_" + f.resolution + "." + f.container
  }

  function Cards(fs: seq<Server.Entry>): (cs: seq<Card>)
    ensures |cs| == |fs|
    ensures forall i :: 0 <= i < |fs| ==> cs[i] == CardOf(fs[i])
  {
    if fs == [] then [] else Cards(fs[..|fs| - 1]) + [CardOf(fs[|fs| - 1])]
  }

  /** `formats.filter(f => f.type === 'video')`, or `'audio'`. */
  function OfType(fs: seq<Server.Entry>, video: bool): (r: seq<Server.Entry>)
    ensures forall i :: 0 <= i < |r| ==> r[i].VideoEntry? == video
    ensures |r| <= |fs|
  {
    if fs == [] then []
    else OfType(fs[..|fs| - 1], video) + (if fs[|fs| - 1].VideoEntry? == video then [fs[|fs| - 1]] else [])
  }

  /** The two filters split the formats: every format lands in exactly one
      of them, as often as it occurs. */
  lemma {:induction false} OfTypePartition(fs: seq<Server.Entry>)
    ensures multiset(OfType(fs, true)) + multiset(OfType(fs, false)) == multiset(fs)
    ensures |OfType(fs, true)| + |OfType(fs, false)| == |fs|
  {
    if fs != [] {
      var init, last := fs[..|fs| - 1], fs[|fs| - 1];
      OfTypePartition(init);
      assert fs == init + [last];
      if last.VideoEntry? {
        assert OfType(fs, true) == OfType(init, true) + [last];
        assert OfType(fs, false) == OfType(init, false);
      } else {
        assert OfType(fs, true) == OfType(init, true);
        assert OfType(fs, false) == OfType(init, false) + [last];
      }
    }
  }

  /** A format of the wanted type is kept. */
  lemma {:induction false} OfTypeKeeps(fs: seq<Server.Entry>, video: bool, f: Server.Entry)
    requires f in fs && f.VideoEntry? == video
    ensures f in OfType(fs, video)
  {
    var init := fs[..|fs| - 1];
    if f != fs[|fs| - 1] {
      assert fs == init + [fs[|fs| - 1]];
      OfTypeKeeps(init, video, f);
    }
  }

  /** The card filter of `filterQuality`. */
  predicate Matches(c: Card, quality: string) {
    quality == "all" || Contains(c.dataQuality, quality)
  }

  /** `all` shows every card, a card's own resolution shows it, and a
      filter longer than the resolution hides it. */
  lemma MatchesProperties(c: Card, quality: string)
    ensures Matches(c, "all")
    ensures Matches(c, c.dataQuality)
    ensures quality != "all" && |quality| > |c.dataQuality| ==> !Matches(c, quality)
  {
    assert StartsAt(c.dataQuality, 0, c.dataQuality);
    OccurrenceContains(c.dataQuality, 0, c.dataQuality);
    ContainsIff(c.dataQuality, quality);
  }

  function Show(c: Card, quality: string): Card {
    c.(shown := Matches(c, quality))
  }

  // ---------------------------------------------------------------------------
  // The page

  /** The elements the class writes. `error` is the error box (shown with a
      message, or hidden); `toast` is the last toast message. */
  datatype Page = Page(
    title: string, thumbnail: string, formatCount: nat,
    duration: string, length: string,
    videoCards: seq<Card>, audioCards: seq<Card>,
    infoShown: bool, tabsShown: bool, videoShown: bool, audioShown: bool,
    loading: bool, error: Option<string>, toast: string)

  const BlankPage := Page("", "", 0, "", "", [], [], false, false, false, false, false, None, "")

  /** The welcome toast as the page shows it: the sparkles emoji of the
      greeting reaches the page as the three characters its UTF-8 bytes
      make when read as Windows-1252 text. */
  const WelcomeToast := "Selamat datang di VYT DOWNLOADER! \U{00E2}\U{0153}\U{00A8}"
  const EmptyInputToast := "Masukkan URL YouTube terlebih dahulu!"
  const InvalidUrlToast := "URL YouTube tidak valid!"
  const FetchFailedMessage := "Gagal mengambil data video. Pastikan URL benar dan coba lagi."
  const DownloadStartedToast := "Download dimulai! Cek folder Downloads."
  const Placeholder := "https://via.placeholder.com/200x113?text=No+Thumbnail"

  /** `hideAllSections`. */
  function HideAll(p: Page): Page {
    p.(infoShown := false, tabsShown := false, videoShown := false, audioShown := false, error := None)
  }

  /** A link the page clicks to start a download. */
  datatype Link = Link(href: string, download: string)

  class LegacyDownloader {
    var baseUrl: string
    var currentFormats: seq<Server.Entry>
    var currentTab: string
    var page: Page

    /** The object after `init`: local server, no formats, the video tab,
        the welcome toast. */
    constructor()
      ensures baseUrl == DefaultBaseUrl && currentFormats == [] && currentTab == "video"
      ensures page == BlankPage.(toast := WelcomeToast)
    {
      baseUrl := DefaultBaseUrl;
      currentFormats := [];
      currentTab := "video";
      page := BlankPage.(toast := WelcomeToast);
    }

    /** `switchTab`: remembers the tab and shows exactly its section; any
        tab other than `video` shows the audio section. */
    method SwitchTab(tab: string)
      modifies this
      ensures currentTab == tab
      ensures page == old(page).(videoShown := tab == "video", audioShown := tab != "video")
      ensures baseUrl == old(baseUrl) && currentFormats == old(currentFormats)
    {
      currentTab := tab;
      page := page.(videoShown := tab == "video", audioShown := tab != "video");
    }

    /** `displayVideoInfo`: title, thumbnail or the placeholder, the number
        of formats, and for a non-zero duration the `m:ss` text in both
        duration elements. */
    method DisplayVideoInfo(title: string, thumbnail: string, duration: nat, formats: seq<Server.Entry>)
      modifies this
      ensures page.title == title && page.formatCount == |formats|
      ensures page.thumbnail == (if thumbnail == "" then Placeholder else thumbnail)
      ensures duration == 0 ==> page.duration == old(page.duration) && page.length == old(page.length)
      ensures duration != 0 ==> page.duration == Clock(duration) && page.length == Clock(duration)
      ensures page == old(page).(title := page.title, thumbnail := page.thumbnail,
                                  formatCount := page.formatCount, duration := page.duration,
                                  length := page.length, infoShown := true, tabsShown := true)
      ensures baseUrl == old(baseUrl) && currentFormats == old(currentFormats) && currentTab == old(currentTab)
    {
      var p := page.(title := title, thumbnail := OrElse(Some(thumbnail), Placeholder), formatCount := |formats|);
      if duration != 0 {
        var text := Clock(duration);
        p := p.(duration := text, length := text);
      }
      page := p.(infoShown := true, tabsShown := true);
    }

    /** `displayFormats`: keeps the formats, renders one card per video
        format and per audio format, in order, and re-shows the current tab. */
    method DisplayFormats(formats: seq<Server.Entry>)
      modifies this
      ensures currentFormats == formats && currentTab == old(currentTab) && baseUrl == old(baseUrl)
      ensures page == old(page).(videoCards := Cards(OfType(formats, true)),
                                  audioCards := Cards(OfType(formats, false)),
                                  videoShown := currentTab == "video",
                                  audioShown := currentTab != "video")
    {
      currentFormats := formats;
      var videos := OfType(formats, true);
      var audios := OfType(formats, false);
      var cards: seq<Card> := [];
      for i := 0 to |videos|
        invariant cards == Cards(videos[..i])
      {
        assert videos[..i + 1][..i] == videos[..i];
        cards := cards + [CardOf(videos[i])];
      }
      assert videos[..|videos|] == videos;
      page := page.(videoCards := cards);
      cards := [];
      for i := 0 to |audios|
        invariant cards == Cards(audios[..i])
      {
        assert audios[..i + 1][..i] == audios[..i];
        cards := cards + [CardOf(audios[i])];
      }
      assert audios[..|audios|] == audios;
      page := page.(audioCards := cards);
      SwitchTab(currentTab);
    }

    /** `filterQuality`: shows the video cards that match the filter and
        hides the others; the cards themselves and their order stay. */
    method FilterQuality(quality: string)
      modifies this
      ensures |page.videoCards| == |old(page.videoCards)|
      ensures forall i :: 0 <= i < |page.videoCards| ==>
                page.videoCards[i] == Show(old(page.videoCards[i]), quality)
      ensures page == old(page).(videoCards := page.videoCards)
      ensures baseUrl == old(baseUrl) && currentFormats == old(currentFormats) && currentTab == old(currentTab)
    {
      var cards := page.videoCards;
      var i := 0;
      while i < |cards|
        invariant 0 <= i <= |cards| && |cards| == |page.videoCards|
        invariant forall k :: 0 <= k < i ==> cards[k] == Show(page.videoCards[k], quality)
        invariant forall k :: i <= k < |cards| ==> cards[k] == page.videoCards[k]
      {
        cards := cards[i := Show(cards[i], quality)];
        i := i + 1;
      }
      page := page.(videoCards := cards);
    }

    /** `fetchVideoInfo` for the text in the input box. Empty or invalid
        input only raises a toast. Otherwise the sections are hidden and the
        server is asked (`serverUp` false: the request itself fails); an
        error answer or a failed request shows the error box, a normal answer
        is displayed. `request` is the URL fetched. */
    method FetchVideoInfo(input: string, serverUp: bool, upstream: Server.Upstream)
      returns (request: Option<string>)
      modifies this
      ensures baseUrl == old(baseUrl)
      ensures Trim(input) == [] ==>
                request == None && page == old(page).(toast := EmptyInputToast)
                && currentFormats == old(currentFormats) && currentTab == old(currentTab)
      ensures Trim(input) != [] && !IsValidYouTubeUrl(Trim(input)) ==>
                request == None && page == old(page).(toast := InvalidUrlToast)
                && currentFormats == old(currentFormats) && currentTab == old(currentTab)
      ensures IsValidYouTubeUrl(Trim(input)) ==> request == Some(InfoRequestUrl(baseUrl, Trim(input)))
      ensures IsValidYouTubeUrl(Trim(input)) && (!serverUp || !upstream.Answered?) ==>
                page == HideAll(old(page)).(error := Some(FetchFailedMessage), loading := false)
                && currentFormats == old(currentFormats) && currentTab == old(currentTab)
      ensures IsValidYouTubeUrl(Trim(input)) && serverUp && upstream.Answered? ==>
                var m := upstream.meta.GetOr(Server.UpstreamMeta(None, None, None));
                var formats := Server.NormaliseAll(upstream.formats.GetOr([]));
                currentFormats == formats && currentTab == old(currentTab)
                && page.title == OrElse(m.title, "Video YouTube")
                && page.thumbnail == OrElse(m.thumbnail, Placeholder)
                && page.duration == (if m.duration.GetOr(0) != 0 then Clock(m.duration.GetOr(0)) else old(page.duration))
                && page.length == (if m.duration.GetOr(0) != 0 then Clock(m.duration.GetOr(0)) else old(page.length))
                && page.toast == old(page.toast)
                && page.formatCount == |formats|
                && page.videoCards == Cards(OfType(formats, true))
                && page.audioCards == Cards(OfType(formats, false))
                && page.infoShown && page.tabsShown && !page.loading && page.error.None?
                && page.videoShown == (currentTab == "video") && page.audioShown == (currentTab != "video")
    {
      var url := Trim(input);
      if url == [] {
        page := page.(toast := EmptyInputToast);
        return None;
      }
      if !IsValidYouTubeUrl(url) {
        page := page.(toast := InvalidUrlToast);
        return None;
      }
      page := HideAll(page).(loading := true);
      request := Some(InfoRequestUrl(baseUrl, url));
      if !serverUp {
        page := page.(error := Some(FetchFailedMessage), loading := false);
        return;
      }
      var reply := Server.Download(Some(url), upstream);
      if !reply.body.Formatted? {
        page := page.(error := Some(FetchFailedMessage), loading := false);
        return;
      }
      var data := reply.body;
      DisplayVideoInfo(data.title, data.thumbnail, data.duration, data.formats);
      DisplayFormats(data.formats);
      page := page.(loading := false);
    }

    /** `downloadFile`: the link to the proxy with the given file name, and
        the toast that announces the download. */
    method DownloadFile(url: Option<string>, filename: string) returns (link: Link)
      modifies this
      ensures link == Link(ProxyRequestUrl(baseUrl, url), filename)
      ensures page == old(page).(toast := DownloadStartedToast)
      ensures baseUrl == old(baseUrl) && currentFormats == old(currentFormats) && currentTab == old(currentTab)
    {
      page := page.(toast := "Mengunduh " + filename + "...");
      link := Link(ProxyRequestUrl(baseUrl, url), filename);
      page := page.(toast := DownloadStartedToast);
    }

    /** The download button of a card. */
    method DownloadCard(c: Card) returns (link: Link)
      modifies this
      ensures link == Link(ProxyRequestUrl(baseUrl, c.format.url), Filename(c.format))
      ensures page == old(page).(toast := DownloadStartedToast)
      ensures baseUrl == old(baseUrl) && currentFormats == old(currentFormats) && currentTab == old(currentTab)
    {
      link := DownloadFile(c.format.url, Filename(c.format));
    }
  }

  /** A video card of a server answer carries the server's resolution as its
      filter key and is downloadable under `quality_resolution.container`. */
  lemma VideoCardsOfAnswer(formats: seq<Server.Entry>, i: nat)
    requires i < |OfType(formats, true)|
    ensures var c := Cards(OfType(formats, true))[i];
            c.format.VideoEntry? && c.format in formats && c.dataQuality == c.format.resolution && c.shown
  {
    OfTypePartition(formats);
    var v := OfType(formats, true);
    assert v[i] in multiset(v);
  }
}

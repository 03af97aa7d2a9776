# VYT downloader, modelled in Dafny

VYT is a YouTube "downloader" front end. It does not download anything itself. It reads a video identifier out of a YouTube address and builds lists of "download formats" around that identifier. The links in those lists point at third-party services. Four programs make up the logic:

- `api/download/route.js`: the edge function. It answers `GET /api/download?url=…` with a JSON envelope: metadata from YouTube's oEmbed endpoint (or placeholders), a catalogue of ten formats and two service links. It answers 400, 405 or 500 where appropriate.
- `server.js`: an older Express server. Its `/api/download` asks a2zconverter and normalises the answer into video and audio entries. Its `/api/proxy` streams a file back.
- `script.js`: the older page script, the client of `server.js`.
- `public/script.js`: the current page script, the client of the edge function. It adds a "live mode" fallback that builds eight working formats and four service cards locally, and it detects music.

The model is split as follows:

- `wrappers.dfy` (`Option`) and `text.dfy` hold the JavaScript string behaviour the programs rely on:
  - falsy strings and `||`, `toLowerCase` on ASCII, `includes`, `replace` with a string pattern and `trim`;
  - `String(n)`, `padStart` and the `m:ss` clock text;
  - the decimal text of a size, and `encodeURIComponent`.
- `patterns.dfy` holds the programs' regular expressions, written as scanners over strings. The order is the same ("first pattern wins, leftmost match wins"), and the `/i` flag is explicit.
- `edge_api.dfy` is the edge function, `server.dfy` the Express server, `legacy_client.dfy` the class of `script.js` and `client_app.dfy` the class of `public/script.js`.
- The page classes are Dafny classes with the same fields: `baseUrl`, `currentFormats`, `currentTab`, `currentVideoData` and `isMusicDetected`. The page elements they write are one `Page` value that the methods replace.
- Loops stay loops, each proved against a function:
  - the pattern loop of `extractVideoId`;
  - the two `forEach` loops of `generateDownloadFormats`;
  - the normalisation loop of `server.js`;
  - the card loops of both `displayFormats` and the two filter loops.
- Network answers are inputs:
  - the oEmbed outcome;
  - the a2zconverter outcome;
  - whether the browser's request gets through;
  - what `new URL(...)` makes of a string;
  - the streamed file.
- A thrown exception inside `getVideoInfo` is the input `fault`.

Sizes are exact integers in tenths of a megabyte, rounded half up, where the source uses doubles.

## Model

| member | source | states |
|---|---|---|
| Patterns.CaptureAt | api/download/route.js:113 | the capture at an index is eleven identifier characters, and it exists exactly when some alternative's literal matches there followed by eleven identifier characters |
| Patterns.CaptureOfAlternative | api/download/route.js:113 | alternatives are tried in written order: the first matching alternative decides the capture |
| Patterns.SearchFrom | api/download/route.js:113 | the search returns the leftmost index with a capture; no earlier index has one, and none means no index has one |
| Patterns.Apply | api/download/route.js:118 | whatever `url.match(pattern)[1]` returns is a video identifier (eleven characters of `[A-Za-z0-9_-]`) |
| Patterns.FirstMatch | api/download/route.js:117-123 | the result is the capture of the first pattern that matches, every earlier pattern failing; none exactly when every pattern fails |
| Patterns.ExtractFirst | api/download/route.js:117-123 | the early-return loop over the patterns returns exactly the first pattern's capture, an identifier |
| Patterns.EmbeddedLeftmost | api/download/route.js:113 | the identifier after the leftmost matching prefix is the one returned |
| Patterns.NoEmbeddedInShort | api/download/route.js:113 | an input of at most eleven characters has no prefixed identifier |
| Patterns.UrlPrefixesExclusive | api/download/route.js:113 | no two URL prefixes match at the same index, so the alternative order never changes a capture |
| Patterns.UrlPrefixedId | api/download/route.js:113 | a URL prefix followed by eleven identifier characters, with nothing captured further left, yields those characters |
| Patterns.NoCaptureWithoutY | api/download/route.js:113 | no capture starts in a stretch of text without `y` |
| Patterns.HostPathNeedsFirstChar | public/script.js:195 | the host-and-path pattern fails on an input that does not start like an address |
| Patterns.LiteralThenIdsTooShort | public/script.js:196-201 | a literal-then-identifier pattern fails on an input shorter than the literal plus the run |
| Patterns.LiteralGapTooShort | public/script.js:202 | the playlist pattern fails on an input shorter than its two literals plus the identifier |
| Patterns.HostPathAccepts | script.js:89 | any scheme, `www.` and host choice followed by `/` and one more character passes the host-and-path pattern |
| Patterns.LiteralThenIdsAccepts | script.js:90-91 | a literal followed by identifier characters anywhere in the input passes the pattern |
| Patterns.TestNeedsYoutu | script.js:88-93 | an input accepted by a URL-shape pattern contains `youtu` (after folding under `/i`) |
| Patterns.AnyTestNeedsYoutu | script.js:93 | the same for `patterns.some(...)` over a list of such patterns |
| Patterns.FoldIrrelevantOnLower | public/script.js:210 | on lower-case input the `/i` flag changes nothing in the prefixed-identifier pattern |
| Text.Lower | public/script.js:573 | `toLowerCase` on ASCII: same length, each character lowered |
| Text.LowerIdempotent | public/script.js:573 | lower-casing twice is lower-casing once |
| Text.OrElse | api/download/route.js:138 | `o \|\| fallback` for a string: the value when it is truthy, otherwise the fallback |
| Text.ReplaceFirstProperties | server.js:62 | `replace` with a string pattern replaces the leftmost occurrence only, and nothing without an occurrence |
| Text.EncodeURIComponent | script.js:215 | `encodeURIComponent`: only unreserved characters and `%` escapes remain |
| Text.EncodeConcat | script.js:215 | the encoding works character by character |
| Text.EncodeUnreserved | script.js:215 | unreserved text is not changed by the encoding |
| Text.EncodedIsOneQueryValue | script.js:215 | the encoding holds none of `& = # + ? /` or space, so it stays one query value |
| Text.NatToString | api/download/route.js:287 | `String(n)`: one or more digits, no leading zero, one digit exactly below ten |
| Text.ParseNatToString | public/script.js:777 | the decimal text of a number reads back as that number |
| Text.PadStart | api/download/route.js:287 | `padStart`: at least the width, the text at the end, fill before it |
| Text.ClockRoundTrip | script.js:102-106 | the `m:ss` duration text reads back as the number of seconds, so it is faithful and unambiguous |
| Text.ClockParts | script.js:103-105 | the clock text is the minutes, a colon and exactly two second digits below 60 |
| Text.TenthsRoundTrip | api/download/route.js:218 | a size printed as `${sizeInMB}` reads back as the same number of tenths |
| Text.TrimProperties | script.js:51 | `trim` leaves no white space at either end, and is empty exactly for all-space input |
| EdgeApi.ExtractVideoId | api/download/route.js:111-124 | a result is a video identifier; none exactly when neither the prefixed pattern nor the whole-input pattern matches |
| EdgeApi.ExtractFromUrl | api/download/route.js:112-114 | any text, a URL prefix, eleven identifier characters and anything after yield those characters when nothing matches further left |
| EdgeApi.ExtractAfterPlainText | api/download/route.js:112-114 | the same when the text before the prefix has no `y` |
| EdgeApi.ExtractBareId | api/download/route.js:115 | a bare identifier is returned unchanged |
| EdgeApi.ExtractRejectsUpperCaseHost | api/download/route.js:113 | matching is case-sensitive: `YOUTU.BE/dQw4w9WgXcQ` yields nothing |
| EdgeApi.ExtractShortLink | api/download/route.js:111-124 | `https://youtu.be/dQw4w9WgXcQ` yields `dQw4w9WgXcQ` |
| EdgeApi.CalculateFileSize | api/download/route.js:263-279 | the size is the nearest tenth of bitrate × duration / 8 (Mbps) or / 8192 (kbps), halves up, with a falsy duration taken as 180 |
| EdgeApi.FileSizeZeroDuration | api/download/route.js:264 | a zero duration gives the 180-second size |
| EdgeApi.FileSizeUnique | api/download/route.js:278 | the rounding bounds determine the size |
| EdgeApi.FileSizeExamples | api/download/route.js:263-279 | at 180 s, 128 kbps is 2.8 MB and 2 Mbps is 45 MB |
| EdgeApi.GenerateDownloadUrl | api/download/route.js:249-260 | every URL starts with the loader base and the raw identifier; mp4 adds `&f=mp4&quality=`, mp3 adds `&f=mp3`, any other format nothing (inherited object member names aside, see Left out) |
| EdgeApi.DownloadUrlCarriesId | api/download/route.js:255-259 | the identifier can be read back from every download URL |
| EdgeApi.DownloadUrlInjective | api/download/route.js:255-256 | mp4 URLs are equal exactly for equal identifier and quality; the mp3 URL ignores the quality |
| EdgeApi.FormatDurationRoundTrip | api/download/route.js:282-288 | `formatDuration` is the `m:ss` clock text (zero included), and it reads back as the seconds |
| EdgeApi.FormatDurationExamples | api/download/route.js:282-288 | 0 gives `0:00`, 180 gives `3:00`, 65 gives `1:05` |
| EdgeApi.LadderRatesParse | api/download/route.js:194-209 | each rung's numeric rate is what `parseFloat` reads from its bitrate text |
| EdgeApi.GenerateDownloadFormats | api/download/route.js:190-246 | the two push loops build the catalogue: one entry per video rung, then one per audio rung |
| EdgeApi.CatalogEntries | api/download/route.js:190-246 | ten entries: six from the video rungs in order, then four from the audio rungs |
| EdgeApi.CatalogVideos | api/download/route.js:211-226 | the first six are mp4 videos with sound, labelled from their rung, with ascending bitrates |
| EdgeApi.CatalogAudios | api/download/route.js:228-243 | the last four are mp3 audios `MP3 …`, resolution `Audio`, with ascending bitrates |
| EdgeApi.CatalogKinds | api/download/route.js:211-243 | the catalogue is six videos followed by four audios |
| EdgeApi.CatalogZeroDuration | api/download/route.js:264 | the catalogue for duration 0 equals the one for 180 s |
| EdgeApi.CatalogSizesAt180 | api/download/route.js:213-218 | the ten sizes at 180 s, from `2.3 MB` to `180 MB` and `1.4 MB` to `7 MB` |
| EdgeApi.CatalogVideoSizes | api/download/route.js:212-218 | at 180 s the six video sizes read `2.3 MB`, `11.3 MB`, `22.5 MB`, `45 MB`, `90 MB`, `180 MB` |
| EdgeApi.CatalogAudioSizes | api/download/route.js:229-235 | at 180 s the four audio sizes read `1.4 MB`, `2.8 MB`, `4.2 MB`, `7 MB` |
| EdgeApi.CatalogUrls | api/download/route.js:219-236 | every URL carries the identifier, the four audio URLs are identical and the six video URLs are distinct |
| EdgeApi.EnvelopeWithoutMetadata | api/download/route.js:179-185 | without an oEmbed answer: title `YouTube Video <id>`, author `YouTube Creator`, 180 s shown as `3:00`, the 180-second catalogue |
| EdgeApi.EnvelopeWithMetadata | api/download/route.js:135-158 | with an answer: duration 0 shown as `0:00`, its title and author unless falsy, yet the 180-second catalogue |
| EdgeApi.EnvelopeOnFault | api/download/route.js:160-163 | when the envelope step throws: success anyway, two formats (720p mp4 and MP3 128kbps), a note, 180 s |
| EdgeApi.EnvelopeSucceeds | api/download/route.js:127-164 | the envelope reports success whether or not its assembly fails |
| EdgeApi.EnvelopeShaped | api/download/route.js:127-164 | every envelope lists its videos before its audios (six and four, or one and one on failure), has a title and an author, and two services except on failure |
| EdgeApi.HandleNonGet | api/download/route.js:9-32 | OPTIONS gets 200 with `GET, OPTIONS`; any other method but GET gets 405 |
| EdgeApi.HandleUnparsable | api/download/route.js:90-107 | an exception from the URL parser ends in 500 with its message as details |
| EdgeApi.HandleBadRequest | api/download/route.js:39-71 | a GET is answered 400 exactly when `url` is empty or yields no identifier, with the matching message |
| EdgeApi.HandleServes | api/download/route.js:76-88 | otherwise the answer is 200 with the envelope of the extracted identifier |
| EdgeApi.HandleShortLink | api/download/route.js:7-108 | a short link is answered 200 with ten formats for its identifier |
| Server.VideoMegabytes | server.js:51-52 | the whole number of MB nearest to ms / 1000 × 0.5, halves up |
| Server.AudioMegabytes | server.js:63-64 | the whole number of MB nearest to ms / 1000 × 0.1, halves up |
| Server.Normalise | server.js:45-69 | a record yields an entry exactly when it has a truthy `qualityLabel` or `audioQuality` |
| Server.NormaliseVideo | server.js:45-56 | a record with `qualityLabel` becomes a video entry even with `audioQuality`: resolution from the height, `mp4` and `hasAudio` false by default |
| Server.NormaliseAudio | server.js:57-68 | an audio-only record becomes `Audio` with the quality minus its first `AUDIO_QUALITY_`, `mp3` and `128kbps` by default |
| Server.SizeExamples | server.js:51-64 | `N/A` without a duration; 180 s gives 90 MB of video and 18 MB of audio |
| Server.NormaliseAllConcat | server.js:44-70 | the loop's output distributes over concatenation of the input |
| Server.NormaliseAllIsFilterMap | server.js:43-71 | the output is an order-preserving filter-map: strictly increasing source indices, all kept records and only them |
| Server.NormaliseAllLength | server.js:43-71 | one entry per kept record; empty exactly when no record is kept |
| Server.Download | server.js:12-82 | 400 without `url`; 500 when the upstream request fails or its body cannot be read; otherwise 200 with defaults and the normalised list (empty without upstream formats) |
| Server.Proxy | server.js:85-105 | 400 without `url`, 500 when the file request fails, otherwise the bytes as an attachment |
| LegacyClient.AcceptsHostPath | script.js:89 | an optional scheme, optional `www.`, a YouTube host, `/` and one more character is valid |
| LegacyClient.AcceptsShortLinkAnywhere | script.js:91 | `youtu.be/` and one identifier character anywhere is valid, with no eleven-character limit |
| LegacyClient.AcceptsWatchAnywhere | script.js:90 | the same for `youtube.com/watch?v=` |
| LegacyClient.ValidMentionsYoutu | script.js:88-93 | a valid input contains `youtu` in lower case |
| LegacyClient.RejectsUpperCase | script.js:88-93 | matching is case-sensitive: `HTTPS://YOUTU.BE/dQw4w9WgXcQ` is refused |
| LegacyClient.InfoRequestCarriesOneValue | script.js:69 | the request carries the address as one encoded `url` value, unchanged when it is unreserved |
| LegacyClient.ProxyRequestCarriesOneValue | script.js:215 | the proxy link carries the file URL as one value; a missing URL sends `undefined`, which the proxy does not refuse |
| LegacyClient.CardOf | script.js:136-139 | a card carries its format and starts shown |
| LegacyClient.Cards | script.js:122-130 | one card per format, in order |
| LegacyClient.OfType | script.js:117-118 | the filter keeps only formats of the wanted type |
| LegacyClient.OfTypePartition | script.js:117-118 | the video and audio filters split the formats as a multiset |
| LegacyClient.OfTypeKeeps | script.js:117-118 | a format of the wanted type is kept |
| LegacyClient.MatchesProperties | script.js:203 | `all` shows every card, a card's own resolution shows it, a longer filter hides it |
| LegacyClient.LegacyDownloader.constructor | script.js:2-48 | local base URL, no formats, the video tab, and the welcome toast exactly as the page shows it, its emoji as the three characters `â`, `œ`, `¨` |
| LegacyClient.LegacyDownloader.SwitchTab | script.js:176-192 | the tab is remembered and exactly its section is shown; any other tab name shows audio |
| LegacyClient.LegacyDownloader.DisplayVideoInfo | script.js:96-111 | title, thumbnail or placeholder and count are set; the duration text is the clock text, left alone for a falsy duration |
| LegacyClient.LegacyDownloader.DisplayFormats | script.js:113-134 | the formats are kept, one card per video and per audio format in order, and the current tab is shown again |
| LegacyClient.LegacyDownloader.FilterQuality | script.js:194-209 | each video card is shown exactly when it matches; cards and their order stay |
| LegacyClient.LegacyDownloader.FetchVideoInfo | script.js:50-85 | empty, then invalid input only raise a toast; a failure or an error answer shows the error box; an answer is displayed through the server's normalisation: title, thumbnail, both duration texts for a non-zero duration (else unchanged), count and cards, with the toast unchanged |
| LegacyClient.LegacyDownloader.DownloadFile | script.js:211-226 | the link goes to the proxy with the encoded URL and the given file name |
| LegacyClient.LegacyDownloader.DownloadCard | script.js:166-171 | a card's button downloads its URL as `<quality>_<resolution>.<container>` |
| LegacyClient.VideoCardsOfAnswer | script.js:117-139 | a video card of a server answer carries the server's resolution as its filter key |
| ClientApp.AcceptsHostPath | public/script.js:195 | an address start in any case, `/` and one more character is valid |
| ClientApp.AcceptsPrefixedId | public/script.js:196-201 | each of the five URL prefixes followed by an identifier, anywhere, is valid |
| ClientApp.AcceptsUpperCase | public/script.js:192-205 | `HTTPS://YOUTU.BE/dQw4w9WgXcQ` is valid here |
| ClientApp.ValidMentionsYoutu | public/script.js:192-205 | a valid input contains `youtu` in some case |
| ClientApp.RejectsShortIdentifier | public/script.js:196-202 | `see youtu.be/a` is refused: every pattern but the first wants eleven identifier characters |
| ClientApp.ValidityDiffersFromLegacy | public/script.js:192-205 | the two pages' checks disagree in both directions |
| ClientApp.LastSegment | public/script.js:225 | the text after the last `/` of the path |
| ClientApp.ExtractVideoId | public/script.js:207-233 | the regular-expression stage's capture when there is one (an identifier), otherwise the `URL` stage's result |
| ClientApp.ExtractAnyCase | public/script.js:209-210 | any capitalisation of a prefix followed by an identifier yields the identifier |
| ClientApp.AgreesWithEdgeOnLowerCase | public/script.js:208-218 | on lower-case input the stage agrees with the edge function |
| ClientApp.DiffersFromEdgeOnUpperCase | public/script.js:208-218 | on `YOUTU.BE/dQw4w9WgXcQ` the page finds the identifier and the edge function does not |
| ClientApp.UrlStageTakesAnyParameter | public/script.js:221-226 | the `URL` stage returns any non-empty `v` parameter, identifier or not |
| ClientApp.WorkingVideos | public/script.js:367-435 | eight formats; the first four are mp4 videos with sound from 1080p down to 360p |
| ClientApp.WorkingAudios | public/script.js:436-497 | the last four are mp3 music audios from 320 down to 128 kbps |
| ClientApp.WorkingUrls | public/script.js:367-497 | every format names a reliable, tested service and its URL ends with the identifier |
| ClientApp.ServicesMatchFormats | public/script.js:500-527 | four service cards, each linking to the page of one video format of the same service |
| ClientApp.NoTitleNoMusic | public/script.js:570-571 | no title means no music, whatever the author |
| ClientApp.MusicIgnoresTitleCase | public/script.js:573 | only the lower-cased title matters |
| ClientApp.MusicGrowsWithTitle | public/script.js:569-610 | a title judged music stays music with text added around it |
| ClientApp.FallbackTitleIsMusic | public/script.js:337 | the page's own live-mode title counts as music (it contains `live`) |
| ClientApp.TagWithWideSpace | public/script.js:596-600 | a bracketed official tag with several spaces is found |
| ClientApp.OfKind | public/script.js:618-619 | the filter keeps only formats of the wanted type |
| ClientApp.OfKindMembers | public/script.js:618-619 | a format is kept exactly when it is present and of the wanted type |
| ClientApp.OfKindPartition | public/script.js:618-623 | with only videos and audios, the two filters split the formats as a multiset and the counts add up |
| ClientApp.WorkingFormatsSplit | public/script.js:614-619 | the demo catalogue splits into its first four videos and last four audios |
| ClientApp.CardOf | public/script.js:656-659 | a card carries its format and type and starts shown |
| ClientApp.Cards | public/script.js:630-637 | one card per format, in order |
| ClientApp.ShowAll | public/script.js:954-957 | `resetFilters` shows every card and changes nothing else |
| ClientApp.ShouldShowProperties | public/script.js:931-933 | `all` shows every card, its own quality shows it, its service name in any case shows it |
| ClientApp.CountShownProperties | public/script.js:930-937 | no card is shown exactly when none passes the filter; `all` shows them all |
| ClientApp.FilterCards | public/script.js:930-937 | the cards keep their order and number, each is shown exactly when it passes the filter, and the count is the number shown |
| ClientApp.Sanitise | public/script.js:776 | each character is kept if alphanumeric, else replaced by `_` |
| ClientApp.SafeQuality | public/script.js:776 | the safe quality is lower-case letters, digits and `_`, one per character, `_` exactly for non-alphanumerics, and stable |
| ClientApp.FilenameParts | public/script.js:775-777 | the file name is `VYT_`, the safe quality, `_`, the timestamp (which reads back), `.` and the container |
| ClientApp.FromEnvelope | public/script.js:280-288 | the page's data keeps the envelope's success and one format per edge format, in order |
| ClientApp.FallbackDataShape | public/script.js:329-350 | the live-mode data: 180 s shown as `3:00`, own `isMusic` false, title judged music, working formats and services of the identifier |
| ClientApp.FallbackVideoId | public/script.js:330 | the extracted identifier, `dQw4w9WgXcQ` when none, nothing when the `URL` parser throws; never empty |
| ClientApp.BuildCards | public/script.js:630-637 | the card loop renders one card per format, in order |
| ClientApp.Downloader.constructor | public/script.js:7-25 | local hosts talk to port 3000, others to their origin; no formats, video tab, no data, no music |
| ClientApp.Downloader.SwitchTab | public/script.js:885-913 | the tab is remembered and its cards are shown again |
| ClientApp.Downloader.DisplayVideoInfo | public/script.js:530-567 | nothing without meta; otherwise texts with their placeholders, and music is the flag or the title and author judged music |
| ClientApp.Downloader.DisplayFormats | public/script.js:612-645 | the demo catalogue when not a list; counts, cards in order, and the audio tab exactly when music was detected and there is audio |
| ClientApp.Downloader.DisplayServices | public/script.js:729-760 | the given services, or the four standard ones for the current video or `demo` |
| ClientApp.Downloader.ShowResults | public/script.js:295-302 | the results are shown with the given toast |
| ClientApp.Downloader.UseFallbackData | public/script.js:329-365 | a throwing `URL` parser changes nothing; otherwise the live-mode data is stored and shown, and the page lands on the audio tab |
| ClientApp.Downloader.ShowLiveMode | public/script.js:334-364 | the live-mode state for an identifier: data, eight formats split four and four, music, audio tab, services, toast |
| ClientApp.Downloader.ShowAnswer | public/script.js:286-302 | the answer and its formats are stored; the music flag follows its meta; the page shows its meta texts, counts and cards, the tab for music and audio, its services or the four standard ones, the results and the toast with its title |
| ClientApp.EdgeAnswerLayout | public/script.js:286-302 | an edge answer shows one card per format, six videos before four audios (one and one on the fault path), its title and author, two services (four standard ones on the fault path), and lands on the audio tab exactly when judged music |
| ClientApp.AnswerLayout | public/script.js:286-302 | for any answer: counts that add up, the cards split where its videos end, its title and author, its services or the four standard ones, the results and the toast |
| ClientApp.Downloader.FetchVideoInfo | public/script.js:236-326 | empty, then invalid input only raise a toast and change nothing else; valid input is requested: an edge answer leaves the whole answer page, with music judged from title and author; otherwise the live mode is shown in full (LiveModeShown), or, when the `URL` parser threw, the page is the reset page and data, formats, tab and music flag are unchanged |
| ClientApp.Downloader.RequestInfo | public/script.js:252-325 | loading ends; an answer from the edge function is shown in full on the reset page; otherwise the live mode is shown in full (data, formats, audio tab, texts, 4+4 cards, services, toast); when the `URL` parser threw, the page is the reset page and data, formats, tab and music flag are unchanged |
| ClientApp.Downloader.FilterFormats | public/script.js:916-943 | each card of the current tab is shown exactly when it passes, the count is the number shown, and an empty result raises a toast |
| ClientApp.Downloader.StartDownload | public/script.js:763-783 | the music-or-video toast, and the plan with the link, the safe file name, and music exactly for audio or mp3 |

## Left out

- EdgeApi.GenerateDownloadUrl: a format name that a plain JavaScript object inherits from `Object.prototype` (`constructor`, `toString`, `valueOf`, `__proto__`, ...) makes `services[format]` return that inherited member instead of the base URL. The model gives the base URL for every name other than `mp4` and `mp3`. The function's callers pass only `mp4` and `mp3`.
- Rendering: innerHTML of cards and service cards, badges, icons, tab buttons, filter buttons, loading animation and styles are not modelled. The page is the set of values the classes write into it.
- Timers and windows are not modelled: the delayed music toast, the delayed `switchTab('audio')` in `displayVideoInfo`, `openDownloadWindow`, `showManualDownload`, `monitorDownloadWindow` and `openExternalService`. `ClientApp.Downloader.StartDownload` returns what it would open instead.
- Network calls are not performed: oEmbed, a2zconverter, the browser's `fetch` and the proxy's stream. Their outcomes are inputs. The proxy's byte stream is one sequence of bytes.
- `new URL(...)` is an input: in the edge handler it is a `Target`, in `public/script.js` a `UrlObject`. Query decoding by the server is taken to undo `encodeURIComponent`.
- Clipboard, `navigator.share`, keyboard shortcuts, `validateUrl` button states, `clearInput`, `retryFetch`, `showError` text styling and `/api/health` are not modelled: they have no state the model keeps.
- Headers (CORS, Cache-Control, Content-Type, Content-Disposition), console logging and timestamps other than the file-name timestamp are not modelled. The timestamp is an input.
- EdgeApi.CalculateFileSize: exact rational arithmetic with round half up. Double rounding at exact halves is not claimed.
- Server.VideoMegabytes: the same for `Math.round` on doubles. Server.AudioMegabytes likewise.
- Text.Lower: `toLowerCase` and `/i` are modelled on ASCII only.
- Lengths are counted in Dafny characters, not UTF-16 code units. This matters for `substring(0, 50)` in the success toast and for `padStart`.
- The thumbnail `onerror` fallback in `displayVideoInfo` is an event handler and is not modelled.
- ClientApp.Downloader.DisplayVideoInfo: records the MUSIC badge as a flag. The title text the badge rewrites is not modelled.
- ClientApp.Downloader.RequestInfo: any failure of the request (timeout, HTTP error, `success` false) is one input, `reachable`. The error-message text built in the `catch` is never shown and is not modelled.
- LegacyClient.Filename has no contract of its own. The file name is stated through LegacyClient.LegacyDownloader.DownloadCard.
- Server.Download: the a2zconverter body is typed. A body that throws while it is read is one `Malformed` outcome with the same 500 answer. Which record makes it throw is not modelled. Durations are whole seconds, so a fractional `meta.duration`, which the older page would print as `3:33.5`, is not modelled.

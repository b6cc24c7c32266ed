# scdl, modelled in Dafny

scdl is a browser extension that adds a download button to SoundCloud
tracks. A click on the button does the following:

- finds the track's URL in the page;
- resolves the track's metadata through SoundCloud's resolver API;
- picks an MP3 stream (progressive first, then HLS) and fetches its audio;
- fetches the artwork at 500x500;
- writes ID3v2.3 frames;
- saves the file under a name built from a user template such as
  `{artist} - {title}`, optionally lower-cased, and sanitised for file systems.

Before any of this, the content script finds the session's client id in
SoundCloud's asset scripts.

The model covers the content script (`index.js`) and the template helper it
shares with the options page (`shared.js`). There is one Dafny module per
concern:

| file | module | models |
|---|---|---|
| `wrappers.dfy` | `Wrappers` | `Option`, and `Result` (the thrown errors) |
| `seqs.dfy` | `Seqs` | `filter`, `reverse` (for `unshift`) and concatenation |
| `text.dfy` | `Text` | the regular-expression classes `\s`, `\w` and digits; `startsWith`, `includes`, `split`, ASCII `toLowerCase` |
| `api.dfy` | `Api` | responses, the resolver's track record, transcodings and the pipeline's errors |
| `format.dfy` | `Format` | `applyFormat` as a scan into literals and tokens, then a rendering |
| `sanitize.dfy` | `Sanitize` | `sanitizeFilename` |
| `naming.dfy` | `Naming` | the settings and the saved file name |
| `tags.dfy` | `Tags` | `tagAndSaveTrack`. The ID3 writer is a class whose frame list `setFrame` appends to |
| `streams.dfy` | `Streams` | `fetchStreamData`. Its `reduce` and its `for` loop are methods proved against specification functions |
| `hls.dfy` | `Hls` | the playlist handling of `resolveHlsBuffer` |
| `artwork.dfy` | `Artwork` | `resolveArtworkBuffer` and the `/large/ig` rewrite |
| `links.dfy` | `Links` | `isValidLink` and `getTrackURL` |
| `clientid.dfy` | `ClientId` | `setClientId`. The session is a class holding the client id, and the search loop is a method |
| `download.dfy` | `Download` | `downloadTrack`. The method follows the source's order and is proved equal to a specification function |

The network, the DOM and URL construction are parameters. Each `fetch`
is a function from a URL to either a rejection or a response. `new URL`
is a function that may reject its argument. The settings store's
content is a value, `None` when reading it fails.

Where the two core files differ, each is modelled as written:

- `index.js:18-21` declares the defaults with lower-casing on.
- `shared.js:3-6` declares them with lower-casing off.

## Model

| member | source | states |
|---|---|---|
| Format.TokenAt | index.js:24 | a match of `\{(\w+)\}` at the start: a `{`, a non-empty run of word characters and a `}` |
| Format.TokenAtName | index.js:24 | `{k}` with `k` made of word characters is always a token, whatever follows |
| Format.UntokenizeTokenize | shared.js:8-12 | the scan loses nothing: its literals and tokens spell the template again |
| Format.TokenizeCanonical | shared.js:8-12 | the scan takes every token it can: no literal stands where a token matches |
| Format.TokenizeUntokenize | shared.js:8-12 | conversely, every canonical piece sequence is what the scan finds in its own text, so the scan is the only reading of a template |
| Format.ApplyFormatToken | index.js:23-29 | `{k}` is replaced by `data[k]`, and the pass goes on after the token without rescanning the value |
| Format.ApplyFormatStep | index.js:23-29 | where no token starts, the first character is copied through and the scan resumes after it |
| Format.ApplyFormatNoTokens | index.js:23-29 | a template where no token matches is returned unchanged |
| Format.ApplyFormatNoBrace | index.js:23-29 | a template without `{` is returned unchanged |
| Format.ApplyFormatPrefix | index.js:23-29 | brace-free text is copied ahead of the rest of the template |
| Format.RenderLookupOnly | shared.js:8-12 | only the values of the names the template mentions matter |
| Format.EmptyValueIsMissing | shared.js:10 | an empty value renders exactly like an absent, `undefined` or `null` one |
| Format.DoubleBraces | index.js:24 | `{{a}}` keeps the outer braces around the value of `a` |
| Format.ValueNotExpanded | index.js:24-28 | a value that looks like a token is not expanded again |
| Format.ApplyFormatSingle | index.js:23-29 | a one-token template renders as that token's value |
| Format.ApplyFormatPair | index.js:23-29 | two tokens around a brace-free separator render as value, separator, value |
| Format.DefaultFormatRendering | shared.js:3-6 | the default template renders as the artist, `" - "` and the title |
| Sanitize.SanitizeFilenameIsSanitized | index.js:31-36 | the result has no forbidden character and no whitespace other than single blank spaces, and it has no space at either end |
| Sanitize.SanitizeFilenameFixed | index.js:31-36 | a name that is already sanitised is left as it is |
| Sanitize.SanitizeFilenameIdempotent | index.js:31-36 | sanitising twice is the same as sanitising once |
| Sanitize.SanitizeFilenameKeepsText | index.js:31-36 | every allowed non-space character is kept, in order: only whitespace changes |
| Sanitize.SanitizeFilenameEmpty | index.js:31-36 | the result is empty exactly when every character is forbidden or whitespace |
| Sanitize.CollapseSpaces | index.js:34 | the result is empty exactly when the input is, starts as the input does (a blank for whitespace), and has no double space and no whitespace but the blank |
| Sanitize.CollapseRun | index.js:34 | a whitespace run followed by a visible character, or by the end, becomes one blank space |
| Sanitize.CollapseAppend | index.js:34 | no run crosses the end of text that ends in a visible character, so such text collapses on its own |
| Sanitize.CollapseBetween | index.js:34 | `\s+` between visible text becomes exactly one blank space, and whitespace alone becomes one blank |
| Sanitize.CollapseKeepsText | index.js:34 | collapsing keeps the visible characters in order |
| Sanitize.DropSpaces | index.js:35 | leading whitespace removed, nothing else |
| Sanitize.TrimEnd | index.js:35 | trailing whitespace removed, nothing else |
| Naming.LoadSettings | index.js:140-146 | the stored format and lowercase flag, each falling back to the content script's default when absent, and all defaults when the read fails |
| Naming.SavedNameShape | index.js:158-166 | every saved name is a non-empty sanitised stem followed by `.mp3` |
| Naming.LowercaseStem | index.js:160-162 | with lower-casing on, the name holds no ASCII capital letter |
| Naming.SanitizeFilenameChars | index.js:31-36 | sanitising brings in no character but the blank space |
| Naming.FallbackNameSanitized | index.js:164 | the `untitled` fallback is itself a sanitised name |
| Naming.SavedNameUnchanged | index.js:158-166 | a rendering that lower-casing and sanitising leave alone is saved under that name |
| Naming.DefaultRenderingExample | index.js:18-21 | the default template renders artist `Y` and title `X` as `Y - X` |
| Naming.DefaultNameExample | index.js:148-166 | with the content script's defaults, that track is saved as `y - x.mp3` |
| Text.SplitFirst | index.js:380 | `split(sep)[0]` is the longest prefix without `sep`. The whole string when there is none |
| Text.JoinSplit | index.js:206-207 | splitting loses nothing: joining the parts gives the string back |
| Text.SplitAppend | index.js:206-207 | the parts of `a + sep + b` are the parts of `a`, then those of `b` |
| Tags.ReleaseYearFromCreation | index.js:96-97 | without a release date, the year is the creation date up to its first `-` |
| Tags.FrameFor | index.js:81-136 | the frame given for an id is a frame of that id (artist, title, year, genre, composer, source page, cover art, comment) |
| Tags.EmittedSound | index.js:81-136 | every frame written is the one `FrameFor` gives for an id in the list |
| Tags.EmittedComplete | index.js:81-136 | every frame that `FrameFor` gives for an id in the list is written |
| Tags.EmittedDistinct | index.js:81-136 | distinct ids give frames with distinct ids |
| Tags.TagFramesSpec | index.js:81-136 | a frame is written exactly when its value is present, and no frame id is written twice |
| Tags.NoArtworkNoPicture | index.js:121-127 | without artwork no picture frame is written |
| Tags.ArtistFrame | index.js:81-86 | the artist frame holds the publisher's artist, else the uploader's name, and is absent when both are empty |
| Tags.TagWriter.SetFrame | index.js:85 | `setFrame` appends one frame and keeps the earlier ones |
| Tags.WriteCreditFrames | index.js:81-93 | the artist and title steps append exactly the frames `FrameFor` gives for TPE1 and TIT2, in that order |
| Tags.WriteYearGenreFrames | index.js:95-107 | the year and genre steps append exactly the TYER and TCON frames |
| Tags.WriteComposerSourceFrames | index.js:109-119 | the composer and source page steps append exactly the TCOM and WOAS frames |
| Tags.WriteArtworkCommentFrames | index.js:121-136 | the cover art and comment steps append exactly the APIC and COMM frames |
| Tags.WriteFrames | index.js:79-136 | all eight steps append exactly `TagFrames`, in source order |
| Tags.TagAndSaveTrack | index.js:78-166 | the saved file holds the track's audio, exactly the frames of `TagFrames`, and the name `SavedName` gives for the stored settings |
| Tags.DefaultTrackNameExample | index.js:148-166 | a track titled `X` by user `Y` with no publisher data, under the defaults, is saved as `y - x.mp3` |
| Streams.CandidateOrderStep | index.js:271-281 | one `reduce` step: a progressive MPEG transcoding goes in front, any other MPEG one goes at the back, the rest are dropped |
| Streams.FilterTranscodings | index.js:271-281 | the `reduce` with `unshift`/`push` builds exactly the candidate order |
| Streams.CandidatesAreMpeg | index.js:271-281 | the candidates are the MPEG transcodings and nothing else, each as often as in the input |
| Streams.CandidateMembership | index.js:272 | a transcoding is a candidate exactly when it is present and MPEG |
| Streams.ProgressiveFirst | index.js:273-277 | every progressive candidate comes before every other one |
| Streams.OthersInInputOrder | index.js:276 | the non-progressive candidates keep their input order |
| Streams.ProgressiveReversed | index.js:274 | the progressive candidates come in reverse input order, because `unshift` puts each in front |
| Streams.FirstStop | index.js:283-299 | the position of the first candidate that ends the loop: every one before it goes on |
| Streams.SelectStreamFirstStop | index.js:283-301 | the first candidate that stops the loop decides the result; if none does, no stream is usable |
| Streams.SelectStreamSuccess | index.js:292-298 | success is the 200 body of that candidate, spread with its format: the format's fields win and the body's other fields are kept |
| Streams.SelectStreamNone | index.js:283-301 | the "no stream" failure happens exactly when every candidate answers with a status other than 200 |
| Streams.TryCandidates | index.js:283-301 | the loop with its early return gives the specified result, and it tries exactly the candidates up to the first that stops it |
| Streams.FetchStreamData | index.js:268-302 | `fetchStreamData` is selection over the candidate order |
| Hls.SegmentLineMembership | index.js:206-208 | a playlist line is a segment exactly when it is non-empty and does not start with `#` |
| Hls.SegmentLinesAppend | index.js:206-208 | segments keep playlist order across a line break |
| Hls.SegmentLinesOneLine | index.js:206-208 | a single line is one segment, or none when it is empty or a tag |
| Hls.SegmentLinesExample | index.js:206-208 | `tag`, `seg1`, `comment`, `seg2` on separate lines give exactly `[seg1, seg2]` |
| Hls.ResolveAll | index.js:209 | every line resolves against the playlist URL, in order, or the whole step fails |
| Hls.FetchAll | index.js:211-215 | every segment is fetched, in order, whatever its status, or the whole step fails |
| Hls.ResolveHlsSuccess | index.js:198-219 | audio is assembled only after a 200 playlist, with every line resolved and every fetch answered; it is the segment bodies joined |
| Hls.ResolveHlsAssembly | index.js:211-218 | segment `k`'s body sits in the audio right after the bodies of the segments before it |
| Artwork.ReplaceLargeIdentity | index.js:254 | a URL with no case-insensitive `large` is left unchanged |
| Artwork.NoLargeLeft | index.js:254 | after the rewrite no `large`, in any case, is left |
| Artwork.ReplaceLargeWord | index.js:254 | every case-insensitive `large` becomes `t500x500`: text up to the first match is copied, the match is replaced, and the scan goes on after it |
| Artwork.ArtworkImage | index.js:251-259 | the track gets an image exactly when the artwork or avatar URL is set and its rewrite answers 200; the artwork URL wins over the avatar |
| Links.LongestFromSpec | index.js:369-374 | the fold keeps the longest valid `href`, never shorter than its start, and takes the first valid link of that length |
| Links.LongestValidHrefSpec | index.js:369-378 | the chosen `href` is empty exactly when no link is valid; otherwise it is the first valid link of greatest length |
| Links.NormalizeTrackUrlShape | index.js:380-384 | the track URL starts with `https://soundcloud.com`, has no `?`, and ends with the link's part before `?` |
| Links.NormalizeTrackUrlIdempotent | index.js:380-384 | normalising a normalised URL changes nothing |
| Links.GetTrackUrlSpec | index.js:357-385 | inside a container: failure exactly when no link is valid; otherwise the normalised URL of a valid link |
| ClientId.ScriptSources | index.js:564-571 | the asset scripts are exactly the sources matching `sndcdn.com/assets/<digit>` |
| ClientId.AssetSourceShape | index.js:567 | `sndcdn`, any non-line-terminator, `com/assets/` and a digit anywhere make an asset script |
| ClientId.FirstClientIdAt | index.js:575 | the leftmost match of `,client_id:"<32 alphanumerics>"` from a position on |
| ClientId.MatchClientId | index.js:575-582 | a client id is found exactly when the pattern matches; it is 32 letters and digits |
| ClientId.MatchClientIdAtStart | index.js:575-582 | a script holding the pattern yields its 32 characters |
| ClientId.DiscoverFirstHit | index.js:576-591 | the first script that yields a client id decides it |
| ClientId.DiscoverNone | index.js:576-594 | no client id is found exactly when no script yields one; any found id comes from one of the scripts |
| ClientId.FindClientId | index.js:576-591 | the loop skips rejections, non-`ok` responses and scripts without the pattern, stops at the first hit, and fetches nothing after it |
| ClientId.Session.SetClientId | index.js:563-595 | the session gets the first found id, or the call fails with the client-id error and the session is left unchanged |
| Download.DownloadTrack | index.js:391-416 | the source's sequence gives exactly the specified outcome, failure included |
| Download.DownloadSuccess | index.js:391-416 | a saved file is the stream's audio, tagged with the track's frames and artwork, under a sanitised non-empty name ending in `.mp3` |
| Download.ArtworkNeverDecides | index.js:396-401 | the artwork fetch never changes whether the download succeeds, the error, the audio or the name |
| Download.TrackAndAudioIgnoresArtwork | index.js:391-416 | the metadata and audio stages never read the artwork fetch |
| Download.StreamAudioProtocol | index.js:403-415 | saved audio comes from a "progressive" or "hls" stream; progressive audio is the 200 body of the stream URL |
| Download.DownloadTrackUrl | index.js:357-378 | outside a container the page URL is resolved; a container without a valid link fails with "track URL not found" |

## Left out

- The DOM is not modelled: button insertion, the button-group checks, the one-second timer and `beforeunload`. A track container appears only as its list of links, and the page only as its URL.
- Logging is not modelled.
- `ToLowerCase`: lower-cases ASCII only. JavaScript's `toLowerCase` also maps non-ASCII letters, and that Unicode table is not modelled.
- Client id: the session's id is not threaded into the URL builders. Its effect on the requests lies inside the request parameters.
- `new URL` and `URL.toString()` are opaque parameters. Their parsing is not modelled.
- `Download.DownloadOutcome`: a failure after the protocol dispatch is reported as the download's outcome. In the source, `resolveProgressiveBuffer` and `resolveHlsBuffer` are not awaited, so these failures surface as unhandled rejections after `downloadTrack` has returned.
- `Hls.ResolveHls`: the media-source plumbing (`Audio`, `MediaSource`, `sourceopen`) is not modelled. The playlist is processed as if `sourceopen` fired once.
- `Hls.FetchAll`: the concurrency of `Promise.all` is not modelled. The fetches are independent, and the result keeps request order, which the model keeps.
- A response body that fails to parse as JSON is not modelled. The resolver and stream bodies arrive decoded.
- Missing `media.transcodings`, or a transcoding without `format`, is not modelled. Either one makes the source throw a `TypeError`.
- Values reached through the prototype chain are not modelled. `data[token]` for a name such as `constructor` or `toString` reads an inherited function.
- The byte encoding of the ID3 tag belongs to the writer library and is not modelled. The model records the frames and their order, not the tag's bytes.
- Of the tag writer's calls, only `setFrame` is modelled. `addTag`, `getBlob` and `revokeURL` are not.
- `saveAs` is modelled only as the file it saves: name, audio and frames.
- `blobToArrayBuffer` is modelled as the identity on the joined segment bytes.
- The web: every request is its own function of its URL. One `fetch` that answers the same URL differently at different times is not modelled.
- `Download.Web`: the source uses one `fetch` for audio and artwork alike. The model gives audio and artwork separate request functions (`fetchAudio`, `fetchArtwork`), so it treats them as independent; `Download.ArtworkNeverDecides` relies on that split.
- The options page (`options.js`) is not part of this model.

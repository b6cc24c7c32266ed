/** `resolveHlsBuffer`: the playlist's segment lines, and the track buffer
    assembled from the segments. */
module Hls {
  import opened Wrappers
  import opened Seqs
  import opened Text
  import opened Api

  /** `line && !line.startsWith("#")` */
  predicate IsSegmentLine(line: string)
  {
    line != "" && !StartsWith(line, "#")
  }

  /** `trackData.split("\n").filter(...)`: the segment lines of a playlist. */
  function SegmentLines(playlist: string): seq<string>
  {
    Filter(Split(playlist, '\n'), IsSegmentLine)
  }

  /** A line of the playlist is a segment exactly when it is not empty and
      is no `#` tag or comment. */
  lemma SegmentLineMembership(playlist: string, line: string)
    ensures line in SegmentLines(playlist)
      <==> line in Split(playlist, '\n') && line != "" && line[0] != '#'
    ensures line in SegmentLines(playlist) ==> '\n' !in line
  {
    FilterMembership(Split(playlist, '\n'), IsSegmentLine, line);
  }

  /** The segments of two playlist parts joined by a newline are those of
      the first part followed by those of the second: playlist order is kept. */
  lemma SegmentLinesAppend(a: string, b: string)
    ensures SegmentLines(a + "\n" + b) == SegmentLines(a) + SegmentLines(b)
  {
    SplitAppend(a, b, '\n');
    FilterAppend(Split(a, '\n'), Split(b, '\n'), IsSegmentLine);
  }

  /** A single line is one segment, or none when it is empty or a tag. */
  lemma SegmentLinesOneLine(line: string)
    requires '\n' !in line
    ensures SegmentLines(line) == if IsSegmentLine(line) then [line] else []
  {
    SplitFirst(line, '\n');
    FilterSingleton(line, IsSegmentLine);
  }

  /** Tags and comments are skipped and segments keep their order: a
      playlist such as "#EXTM3U\nseg1.ts\n#COMMENT\nseg2.ts" has exactly
      the segments "seg1.ts" and "seg2.ts". */
  lemma SegmentLinesExample(tag: string, seg1: string, comment: string, seg2: string)
    requires StartsWith(tag, "#") && StartsWith(comment, "#")
    requires IsSegmentLine(seg1) && IsSegmentLine(seg2)
    requires '\n' !in tag && '\n' !in seg1 && '\n' !in comment && '\n' !in seg2
    ensures SegmentLines(tag + "\n" + (seg1 + "\n" + (comment + "\n" + seg2))) == [seg1, seg2]
  {
    var rest2 := comment + "\n" + seg2;
    var rest1 := seg1 + "\n" + rest2;
    SegmentLinesAppend(tag, rest1);
    SegmentLinesAppend(seg1, rest2);
    SegmentLinesAppend(comment, seg2);
    assert !IsSegmentLine(tag) && !IsSegmentLine(comment);
    SegmentLinesOneLine(tag);
    SegmentLinesOneLine(seg1);
    SegmentLinesOneLine(comment);
    SegmentLinesOneLine(seg2);
  }

  /** `.map((line) => new URL(line, trackUrl).toString())`: `None` when a
      line is rejected as a URL. */
  function ResolveAll(lines: seq<string>, base: string,
                      resolveUrl: (string, string) -> Option<string>): (r: Option<seq<string>>)
    ensures r.Some? <==> forall i :: 0 <= i < |lines| ==> resolveUrl(lines[i], base).Some?
    ensures r.Some? ==> |r.value| == |lines|
    ensures r.Some? ==> forall i :: 0 <= i < |lines| ==> r.value[i] == resolveUrl(lines[i], base).value
  {
    if lines == [] then Some([])
    else
      match resolveUrl(lines[0], base)
      case None => None
      case Some(u) =>
        match ResolveAll(lines[1..], base, resolveUrl)
        case None => None
        case Some(us) => Some([u] + us)
  }

  /** `Promise.all(urls.map((url) => fetch(url).then((res) => res.arrayBuffer())))`:
      every segment body, in order, whatever its status; `None` when a
      fetch rejects. */
  function FetchAll(urls: seq<string>, fetch: string -> FetchOutcome<seq<Byte>>): (r: Option<seq<seq<Byte>>>)
    ensures r.Some? <==> forall i :: 0 <= i < |urls| ==> fetch(urls[i]).Fetched?
    ensures r.Some? ==> |r.value| == |urls|
    ensures r.Some? ==> forall i :: 0 <= i < |urls| ==> r.value[i] == fetch(urls[i]).response.body
  {
    if urls == [] then Some([])
    else
      match fetch(urls[0])
      case FetchError => None
      case Fetched(res) =>
        match FetchAll(urls[1..], fetch)
        case None => None
        case Some(bs) => Some([res.body] + bs)
  }

  /** The audio `resolveHlsBuffer` hands to `tagAndSaveTrack`: the playlist
      must answer 200; the segments are resolved against the playlist URL,
      fetched and joined in playlist order (`new Blob(arrayBuffers)`). */
  function ResolveHls(trackUrl: string, fetchText: string -> FetchOutcome<string>,
                      resolveUrl: (string, string) -> Option<string>,
                      fetchBytes: string -> FetchOutcome<seq<Byte>>): Result<seq<Byte>, Error>
  {
    match fetchText(trackUrl)
    case FetchError => Failure(NetworkError)
    case Fetched(trackRes) =>
      if trackRes.status != 200 then Failure(FetchFailed)
      else
        match ResolveAll(SegmentLines(trackRes.body), trackUrl, resolveUrl)
        case None => Failure(InvalidUrl)
        case Some(urls) =>
          match FetchAll(urls, fetchBytes)
          case None => Failure(NetworkError)
          case Some(buffers) => Success(Concat(buffers))
  }

  /** A track buffer is assembled only when the playlist answered 200, every
      segment line resolved and every segment fetch answered; it is then
      the segment bodies joined. */
  lemma ResolveHlsSuccess(trackUrl: string, fetchText: string -> FetchOutcome<string>,
                          resolveUrl: (string, string) -> Option<string>,
                          fetchBytes: string -> FetchOutcome<seq<Byte>>)
    requires ResolveHls(trackUrl, fetchText, resolveUrl, fetchBytes).Success?
    ensures fetchText(trackUrl).Fetched? && fetchText(trackUrl).response.status == 200
    ensures ResolveAll(SegmentLines(fetchText(trackUrl).response.body), trackUrl, resolveUrl).Some?
    ensures FetchAll(ResolveAll(SegmentLines(fetchText(trackUrl).response.body), trackUrl, resolveUrl).value,
                     fetchBytes).Some?
    ensures ResolveHls(trackUrl, fetchText, resolveUrl, fetchBytes).value
      == Concat(FetchAll(ResolveAll(SegmentLines(fetchText(trackUrl).response.body), trackUrl, resolveUrl).value,
                         fetchBytes).value)
  {
  }

  /** On success, the k-th segment line's body sits in the track buffer right
      after the bodies of the segments before it, whatever the status of
      its response. */
  lemma ResolveHlsAssembly(trackUrl: string, fetchText: string -> FetchOutcome<string>,
                           resolveUrl: (string, string) -> Option<string>,
                           fetchBytes: string -> FetchOutcome<seq<Byte>>, k: nat)
    requires ResolveHls(trackUrl, fetchText, resolveUrl, fetchBytes).Success?
    requires k < |SegmentLines(fetchText(trackUrl).response.body)|
    ensures var lines := SegmentLines(fetchText(trackUrl).response.body);
      var buffers := FetchAll(ResolveAll(lines, trackUrl, resolveUrl).value, fetchBytes).value;
      var audio := ResolveHls(trackUrl, fetchText, resolveUrl, fetchBytes).value;
      && Offset(buffers, k) + |buffers[k]| <= |audio|
      && audio[Offset(buffers, k)..Offset(buffers, k) + |buffers[k]|]
         == fetchBytes(resolveUrl(lines[k], trackUrl).value).response.body
  {
    ResolveHlsSuccess(trackUrl, fetchText, resolveUrl, fetchBytes);
    var lines := SegmentLines(fetchText(trackUrl).response.body);
    var urls := ResolveAll(lines, trackUrl, resolveUrl).value;
    var buffers := FetchAll(urls, fetchBytes).value;
    assert urls[k] == resolveUrl(lines[k], trackUrl).value;
    assert buffers[k] == fetchBytes(urls[k]).response.body;
    ConcatSlice(buffers, k);
  }
}

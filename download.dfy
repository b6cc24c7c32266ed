/** `downloadTrack`: from the clicked button's track container to the saved,
    tagged `.mp3` file. */
module Download {
  import opened Wrappers
  import opened Text
  import opened Api
  import opened Format
  import opened Naming
  import opened Links
  import opened Streams
  import opened Hls
  import opened Artwork
  import opened Tags
  import opened Sanitize

  /** The web as the pipeline reaches it. Each request is a parameter,
      named for the body it reads; the session's client id is part of the
      URLs these functions build and fetch.
      - `resolve`: the resolver API's answer for a track URL, JSON decoded;
      - `streamUrl`: `new URL(u)` with `client_id` set, `None` when rejected;
      - `fetchJson`, `fetchText`, `fetchAudio`, `fetchArtwork`: `fetch` read
        as JSON, as text, or as an array buffer;
      - `resolveUrl`: `new URL(line, base)`, `None` when rejected. */
  datatype Web = Web(
    resolve: string -> FetchOutcome<TrackMetadata>,
    streamUrl: string -> Option<string>,
    fetchJson: string -> FetchOutcome<JsonObject>,
    fetchText: string -> FetchOutcome<string>,
    fetchAudio: string -> FetchOutcome<seq<Byte>>,
    fetchArtwork: string -> FetchOutcome<seq<Byte>>,
    resolveUrl: (string, string) -> Option<string>)

  /** `resolveTrack(url)`: the resolver must answer 200. */
  function ResolveTrack(trackUrl: string, web: Web): Result<TrackMetadata, Error>
  {
    match web.resolve(trackUrl)
    case FetchError => Failure(NetworkError)
    case Fetched(res) => if res.status != 200 then Failure(ResolveFailed) else Success(res.body)
  }

  /** The audio `resolveProgressiveBuffer` hands to `tagAndSaveTrack`: the
      whole file, on a 200. */
  function ResolveProgressive(trackUrl: string, web: Web): Result<seq<Byte>, Error>
  {
    match web.fetchAudio(trackUrl)
    case FetchError => Failure(NetworkError)
    case Fetched(res) => if res.status != 200 then Failure(FetchFailed) else Success(res.body)
  }

  /** The end of `downloadTrack`: the stream URL with the client id, then the
      buffer of the stream's protocol. The URL is built before the protocol
      is looked at. */
  function StreamAudio(streamData: JsonObject, web: Web): Result<seq<Byte>, Error>
  {
    if "url" !in streamData then Failure(InvalidUrl)
    else
      match web.streamUrl(streamData["url"])
      case None => Failure(InvalidUrl)
      case Some(trackUrl) =>
        var protocol := Lookup(streamData, "protocol");
        if protocol == "progressive" then ResolveProgressive(trackUrl, web)
        else if protocol == "hls" then ResolveHls(trackUrl, web.fetchText, web.resolveUrl, web.fetchAudio)
        else Failure(UnknownProtocol)
  }

  /** Everything the download needs but the artwork: the track's metadata
      and its audio, or the first error on the way. */
  function TrackAndAudio(container: Option<seq<Link>>, documentUrl: string, web: Web)
    : Result<(TrackMetadata, seq<Byte>), Error>
  {
    var trackUrl :- GetTrackUrl(container, documentUrl);
    var m :- ResolveTrack(trackUrl, web);
    var streamData :- SelectStream(CandidateOrder(m.transcodings), web.streamUrl, web.fetchJson);
    var audio :- StreamAudio(streamData, web);
    Success((m, audio))
  }

  /** The artwork of a track, with its failure caught. */
  function TrackArtwork(m: TrackMetadata, web: Web): Option<seq<Byte>>
  {
    CaughtArtwork(ResolveArtworkBuffer(ArtworkSource(m), web.fetchArtwork))
  }

  /** The file a click saves, or the error that stops it. */
  function DownloadOutcome(container: Option<seq<Link>>, documentUrl: string, web: Web,
                           stored: Option<StoredSettings>): Result<SavedFile, Error>
  {
    match TrackAndAudio(container, documentUrl, web)
    case Failure(e) => Failure(e)
    case Success(ma) =>
      var (m, audio) := ma;
      Success(SavedFile(SavedName(LoadSettings(stored), TokenData(m)), audio, TagFrames(m, TrackArtwork(m, web))))
  }

  /** `downloadTrack(buttonElement)` in the source's order: track URL,
      metadata, stream data, artwork (its failure caught), stream URL,
      protocol, then `tagAndSaveTrack` with the settings store's content. */
  method DownloadTrack(container: Option<seq<Link>>, documentUrl: string, web: Web,
                       stored: Option<StoredSettings>)
    returns (r: Result<SavedFile, Error>)
    ensures r == DownloadOutcome(container, documentUrl, web, stored)
  {
    var trackUrl := GetTrackUrl(container, documentUrl);
    if trackUrl.Failure? {
      return Failure(trackUrl.error);
    }
    var resolveData := ResolveTrack(trackUrl.value, web);
    if resolveData.Failure? {
      return Failure(resolveData.error);
    }
    var m := resolveData.value;
    var streamData, _ := FetchStreamData(m.transcodings, web.streamUrl, web.fetchJson);
    if streamData.Failure? {
      return Failure(streamData.error);
    }

    var artworkBuffer := CaughtArtwork(ResolveArtworkBuffer(ArtworkSource(m), web.fetchArtwork));

    if "url" !in streamData.value {
      return Failure(InvalidUrl);
    }
    var streamDataUrl := web.streamUrl(streamData.value["url"]);
    if streamDataUrl.None? {
      return Failure(InvalidUrl);
    }
    var audio: Result<seq<Byte>, Error>;
    var protocol := Lookup(streamData.value, "protocol");
    if protocol == "progressive" {
      audio := ResolveProgressive(streamDataUrl.value, web);
    } else if protocol == "hls" {
      audio := ResolveHls(streamDataUrl.value, web.fetchText, web.resolveUrl, web.fetchAudio);
    } else {
      return Failure(UnknownProtocol);
    }
    if audio.Failure? {
      return Failure(audio.error);
    }
    var file := TagAndSaveTrack(audio.value, artworkBuffer, m, stored);
    r := Success(file);
  }

  /** A saved file is the track's audio, tagged with the track's frames and
      the artwork that was fetched, under a sanitised, non-empty name ending
      in `.mp3`. */
  lemma DownloadSuccess(container: Option<seq<Link>>, documentUrl: string, web: Web,
                        stored: Option<StoredSettings>)
    requires DownloadOutcome(container, documentUrl, web, stored).Success?
    ensures var file := DownloadOutcome(container, documentUrl, web, stored).value;
      var (m, audio) := TrackAndAudio(container, documentUrl, web).value;
      && TrackAndAudio(container, documentUrl, web).Success?
      && file.audio == audio
      && file.frames == TagFrames(m, TrackArtwork(m, web))
      && EndsWith(file.name, Extension)
      && file.name == SavedStem(LoadSettings(stored), TokenData(m)) + Extension
      && SavedStem(LoadSettings(stored), TokenData(m)) != ""
      && IsSanitized(SavedStem(LoadSettings(stored), TokenData(m)))
  {
    var (m, audio) := TrackAndAudio(container, documentUrl, web).value;
    SavedNameShape(LoadSettings(stored), TokenData(m));
  }

  /** The artwork never decides whether a download succeeds, which error
      stops it, which audio is saved or under which name: two webs that
      differ only in the artwork fetch save the same track. */
  lemma ArtworkNeverDecides(container: Option<seq<Link>>, documentUrl: string, web: Web,
                            fetchArtwork: string -> FetchOutcome<seq<Byte>>, stored: Option<StoredSettings>)
    ensures var r1 := DownloadOutcome(container, documentUrl, web, stored);
      var r2 := DownloadOutcome(container, documentUrl, web.(fetchArtwork := fetchArtwork), stored);
      && (r1.Success? <==> r2.Success?)
      && (r1.Failure? ==> r1 == r2)
      && (r1.Success? ==> r1.value.audio == r2.value.audio && r1.value.name == r2.value.name)
  {
    TrackAndAudioIgnoresArtwork(container, documentUrl, web, fetchArtwork);
  }

  /** The metadata and audio stages never read the artwork fetch. */
  lemma TrackAndAudioIgnoresArtwork(container: Option<seq<Link>>, documentUrl: string, web: Web,
                                    fetchArtwork: string -> FetchOutcome<seq<Byte>>)
    ensures TrackAndAudio(container, documentUrl, web.(fetchArtwork := fetchArtwork))
      == TrackAndAudio(container, documentUrl, web)
  {
  }

  /** A saved track came from a stream whose protocol is "progressive" or
      "hls"; a progressive one is the 200 body of its stream URL. */
  lemma StreamAudioProtocol(streamData: JsonObject, web: Web)
    requires StreamAudio(streamData, web).Success?
    ensures "url" in streamData && web.streamUrl(streamData["url"]).Some?
    ensures Lookup(streamData, "protocol") in {"progressive", "hls"}
    ensures Lookup(streamData, "protocol") == "progressive" ==>
      var res := web.fetchAudio(web.streamUrl(streamData["url"]).value);
      res.Fetched? && res.response.status == 200 && StreamAudio(streamData, web).value == res.response.body
  {
  }

  /** Outside a track container the page's own URL is resolved; inside one,
      a container without a valid link stops the download before any
      request. */
  lemma DownloadTrackUrl(container: Option<seq<Link>>, documentUrl: string, web: Web,
                         stored: Option<StoredSettings>)
    ensures container.None? && web.resolve(documentUrl).FetchError?
      ==> DownloadOutcome(container, documentUrl, web, stored) == Failure(NetworkError)
    ensures container.None? && web.resolve(documentUrl).Fetched? && web.resolve(documentUrl).response.status != 200
      ==> DownloadOutcome(container, documentUrl, web, stored) == Failure(ResolveFailed)
    ensures container.Some? && (forall j :: 0 <= j < |container.value| ==> !IsValidLink(container.value[j]))
      ==> DownloadOutcome(container, documentUrl, web, stored) == Failure(TrackUrlNotFound)
  {
    if container.Some? {
      GetTrackUrlSpec(container.value, documentUrl);
    }
  }
}

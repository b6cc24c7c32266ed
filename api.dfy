/** The values the pipeline receives from the web: HTTP responses, the
    resolver API's track description and its transcodings, and the errors
    the pipeline throws. */
module Api {
  import opened Wrappers

  type Byte = b: int | 0 <= b < 256

  /** A response as the pipeline reads it: its status and its decoded body. */
  datatype Response<T> = Response(status: int, body: T)

  /** `Response.ok`: a status in the range 200-299. */
  predicate IsOk(status: int) { 200 <= status <= 299 }

  /** `fetch` either rejects (network failure, unreadable body) or answers. */
  datatype FetchOutcome<T> = FetchError | Fetched(response: Response<T>)

  /** A JSON object with string values, as `{...a, ...b}` spreads it. */
  type JsonObject = map<string, string>

  /** A field read the way the pipeline reads it: `o[key]` when present,
      otherwise `""` (an absent, `undefined` or `null` entry, all falsy). */
  function Lookup(o: JsonObject, key: string): string
  {
    if key in o then o[key] else ""
  }

  /** One entry of `media.transcodings`: its URL and its `format` object
      (`mime_type`, `protocol`). */
  datatype Transcoding = Transcoding(url: string, format: JsonObject)

  /** In the records below, a string field that the API leaves out or sets
      to null is the empty string: the pipeline only tests these fields for
      truthiness, where the three are alike. */
  datatype User = User(username: string, avatarUrl: string)

  datatype PublisherMetadata = PublisherMetadata(
    artist: string,
    releaseTitle: string,
    writerComposer: string,
    albumTitle: string)

  /** The resolver API's description of a track. */
  datatype TrackMetadata = TrackMetadata(
    title: string,
    user: Option<User>,
    publisher: Option<PublisherMetadata>,
    releaseDate: string,
    createdAt: string,
    genre: string,
    description: string,
    permalinkUrl: string,
    artworkUrl: string,
    transcodings: seq<Transcoding>)

  /** The errors the pipeline throws. */
  datatype Error =
    | ClientIdNotFound    // "Failed to find SoundCloud clientId..."
    | TrackUrlNotFound    // "Failed to find track URL..."
    | ResolveFailed       // "Error while resolving '<url>'..."
    | NoUsableStream      // "Failed to get stream data from transcoding URL..."
    | InvalidUrl          // `new URL(...)` rejects its argument
    | NetworkError        // `fetch` rejects
    | FetchFailed         // a non-200 track, playlist or artwork response
    | UnknownProtocol     // "Failed to resolve track: Unknown protocol."
}

/** `setClientId`: the SoundCloud client id of the user's session, found by
    fetching the page's asset scripts in order until one of them holds it. */
module ClientId {
  import opened Wrappers
  import opened Text
  import opened Seqs
  import opened Api

  /** `/sndcdn.com\/assets\/[0-9]/` matches at position `i` of `src`: the
      unescaped `.` is any character but a line terminator, and the
      trailing `[0-9]*` adds nothing to whether there is a match. */
  predicate AssetMatchAt(src: string, i: nat)
  {
    i + 19 <= |src|
    && src[i..i + 6] == "sndcdn" && !IsLineTerminator(src[i + 6])
    && src[i + 7..i + 18] == "com/assets/" && IsDigit(src[i + 18])
  }

  // `elem.src.match(/sndcdn.com\/assets\/[0-9][0-9]*/g)` is truthy.
  predicate IsAssetSource(src: string)
  {
    exists i: nat | i < |src| :: AssetMatchAt(src, i)
  }

  /** The `reduce` over the page's `<script>` sources: the asset scripts, in
      document order. */
  function ScriptSources(srcs: seq<string>): (r: seq<string>)
    ensures forall s :: s in r <==> s in srcs && IsAssetSource(s)
  {
    FilterMembership(srcs, IsAssetSource, "");
    forall s ensures s in Filter(srcs, IsAssetSource) <==> s in srcs && IsAssetSource(s) {
      FilterMembership(srcs, IsAssetSource, s);
    }
    Filter(srcs, IsAssetSource)
  }

  /** A source with the host, any character, the assets path and a digit
      somewhere in it is an asset script. */
  lemma AssetSourceShape(before: string, c: char, d: char, after: string)
    requires !IsLineTerminator(c) && IsDigit(d)
    ensures IsAssetSource(before + "sndcdn" + [c] + "com/assets/" + [d] + after)
  {
    var src := before + "sndcdn" + [c] + "com/assets/" + [d] + after;
    var i := |before|;
    assert src[i..i + 6] == "sndcdn";
    assert src[i + 6] == c;
    assert src[i + 7..i + 18] == "com/assets/";
    assert src[i + 18] == d;
    assert AssetMatchAt(src, i);
  }

  const ClientIdPrefix := ",client_id:\""
  const ClientIdLength := 32

  /** `/,client_id:"([a-zA-Z0-9]{32})"/` matches at position `i` of `text`. */
  predicate ClientIdAt(text: string, i: nat)
  {
    i + 45 <= |text| && text[i..i + 12] == ClientIdPrefix
    && (forall j :: i + 12 <= j < i + 44 ==> IsAlnum(text[j]))
    && text[i + 44] == '"'
  }

  /** The leftmost position from `from` on where the pattern matches: the
      pattern has a fixed length, so the leftmost match is the first such
      position. */
  function FirstClientIdAt(text: string, from: nat): (r: Option<nat>)
    requires from <= |text|
    ensures r.Some? ==> from <= r.value && ClientIdAt(text, r.value)
    ensures r.Some? ==> forall j :: from <= j < r.value ==> !ClientIdAt(text, j)
    ensures r.None? ==> forall j :: from <= j <= |text| ==> !ClientIdAt(text, j)
    decreases |text| - from
  {
    if ClientIdAt(text, from) then Some(from)
    else if from == |text| then None
    else FirstClientIdAt(text, from + 1)
  }

  /** `data.match(regex)?.[1]`: the captured 32 characters of the leftmost
      match, if any. */
  function MatchClientId(text: string): (r: Option<string>)
    ensures r.Some? ==> |r.value| == ClientIdLength && forall j :: 0 <= j < |r.value| ==> IsAlnum(r.value[j])
    ensures r.Some? <==> exists i: nat | i <= |text| :: ClientIdAt(text, i)
  {
    match FirstClientIdAt(text, 0)
    case None => None
    case Some(i) => Some(text[i + 12..i + 44])
  }

  /** A script that starts with the pattern yields the 32 characters after
      its prefix, whatever follows them. */
  lemma MatchClientIdAtStart(id: string, rest: string)
    requires |id| == ClientIdLength && forall j :: 0 <= j < |id| ==> IsAlnum(id[j])
    ensures MatchClientId(ClientIdPrefix + id + "\"" + rest) == Some(id)
  {
    var text := ClientIdPrefix + id + "\"" + rest;
    assert text[0..12] == ClientIdPrefix;
    assert text[12..44] == id;
    assert forall j :: 12 <= j < 44 ==> text[j] == id[j - 12];
    assert text[44] == '"';
    assert ClientIdAt(text, 0);
  }

  /** One pass of the `for` loop: a fetch that rejects, a response that is
      not `ok`, or a script without the pattern gives nothing. */
  function TryScript(src: string, fetch: string -> FetchOutcome<string>): Option<string>
  {
    match fetch(src)
    case FetchError => None
    case Fetched(res) => if !IsOk(res.status) then None else MatchClientId(res.body)
  }

  /** The client id the loop settles on: the one of the first source that
      yields one. */
  function DiscoverClientId(srcs: seq<string>, fetch: string -> FetchOutcome<string>): Option<string>
  {
    if srcs == [] then None
    else match TryScript(srcs[0], fetch)
      case Some(id) => Some(id)
      case None => DiscoverClientId(srcs[1..], fetch)
  }

  /** The first source that yields a client id decides it; the sources
      before it yield none. */
  lemma {:induction false} DiscoverFirstHit(srcs: seq<string>, fetch: string -> FetchOutcome<string>, k: nat)
    requires k < |srcs| && TryScript(srcs[k], fetch).Some?
    requires forall j :: 0 <= j < k ==> TryScript(srcs[j], fetch).None?
    ensures DiscoverClientId(srcs, fetch) == TryScript(srcs[k], fetch)
  {
    if k > 0 {
      assert TryScript(srcs[0], fetch).None?;
      assert forall j :: 0 <= j < k - 1 ==> srcs[1..][j] == srcs[j + 1];
      DiscoverFirstHit(srcs[1..], fetch, k - 1);
    }
  }

  /** No client id is found exactly when no source yields one; a found id
      is always 32 letters and digits, and comes from one of the sources. */
  lemma {:induction false} DiscoverNone(srcs: seq<string>, fetch: string -> FetchOutcome<string>)
    ensures DiscoverClientId(srcs, fetch).None? <==> forall j :: 0 <= j < |srcs| ==> TryScript(srcs[j], fetch).None?
    ensures DiscoverClientId(srcs, fetch).Some? ==>
      exists j :: 0 <= j < |srcs| && TryScript(srcs[j], fetch) == DiscoverClientId(srcs, fetch)
  {
    if srcs != [] {
      DiscoverNone(srcs[1..], fetch);
      assert forall j :: 0 < j < |srcs| ==> srcs[j] == srcs[1..][j - 1];
    }
  }

  /** The `for` loop of `setClientId` over the asset scripts, with its early
      return. `fetched` counts the sources it fetched. */
  method FindClientId(sources: seq<string>, fetch: string -> FetchOutcome<string>)
    returns (clientId: Option<string>, fetched: nat)
    ensures clientId == DiscoverClientId(sources, fetch)
    ensures fetched <= |sources|
    ensures clientId.None? ==> fetched == |sources|
    ensures clientId.Some? ==> 0 < fetched && TryScript(sources[fetched - 1], fetch) == clientId
    ensures forall j :: 0 <= j < fetched - 1 ==> TryScript(sources[j], fetch).None?
  {
    fetched := 0;
    while fetched < |sources|
      invariant fetched <= |sources|
      invariant DiscoverClientId(sources[fetched..], fetch) == DiscoverClientId(sources, fetch)
      invariant forall j :: 0 <= j < fetched ==> TryScript(sources[j], fetch).None?
    {
      var src := sources[fetched];
      assert sources[fetched..][1..] == sources[fetched + 1..];
      fetched := fetched + 1;
      var res := fetch(src);
      if res.FetchError? {
        continue;
      }
      if !IsOk(res.response.status) {
        continue;
      }
      var found := MatchClientId(res.response.body);
      if found.Some? {
        return found, fetched;
      }
    }
    clientId := None;
  }

  /** `window.SCDL__CLIENT_ID` as the page session holds it. */
  class Session {
    var clientId: Option<string>

    constructor()
      ensures clientId == None
    {
      clientId := None;
    }

    /** `setClientId()` given the page's `<script>` sources: sets the client
        id of the first asset script that holds one, or fails with
        "Failed to find SoundCloud clientId..." and leaves the session as it
        was. */
    method SetClientId(scriptSrcs: seq<string>, fetch: string -> FetchOutcome<string>)
      returns (r: Result<(), Error>)
      modifies this
      ensures var found := DiscoverClientId(ScriptSources(scriptSrcs), fetch);
        && (found.Some? ==> r == Success(()) && clientId == found)
        && (found.None? ==> r == Failure(ClientIdNotFound) && clientId == old(clientId))
    {
      var sources := ScriptSources(scriptSrcs);
      var found, _ := FindClientId(sources, fetch);
      if found.Some? {
        clientId := found;
        return Success(());
      }
      r := Failure(ClientIdNotFound);
    }
  }
}

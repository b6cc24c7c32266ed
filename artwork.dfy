/** `resolveArtworkBuffer` and its caller's choice of image: the track's
    artwork, else the uploader's avatar, fetched at 500x500. */
module Artwork {
  import opened Wrappers
  import opened Text
  import opened Api

  /** What each match of `/large/ig` is replaced by. */
  const Replacement := "t500x500"

  /** `/large/i` matches at position `i` of `s`: ASCII letters compare
      without case, nothing else matches a letter of "large". */
  predicate LargeAt(s: string, i: nat)
  {
    i + 5 <= |s| && LowerChar(s[i]) == 'l' && LowerChar(s[i + 1]) == 'a' && LowerChar(s[i + 2]) == 'r'
    && LowerChar(s[i + 3]) == 'g' && LowerChar(s[i + 4]) == 'e'
  }

  /** `/large/i` matches somewhere in `s`. */
  predicate HasLarge(s: string)
  {
    exists i: nat | i < |s| :: LargeAt(s, i)
  }

  /** `s.replace(/large/ig, "t500x500")`: a left-to-right scan replacing
      each match and resuming after it. */
  function ReplaceLarge(s: string): string
    decreases |s|
  {
    if s == [] then []
    else if LargeAt(s, 0) then Replacement + ReplaceLarge(s[5..])
    else [s[0]] + ReplaceLarge(s[1..])
  }

  /** A URL without a match is left as it is. */
  lemma {:induction false} ReplaceLargeIdentity(s: string)
    requires !HasLarge(s)
    ensures ReplaceLarge(s) == s
    decreases |s|
  {
    if s != [] {
      assert !LargeAt(s, 0);
      forall i: nat | i < |s[1..]|
        ensures !LargeAt(s[1..], i)
      {
        assert !LargeAt(s, i + 1);
      }
      ReplaceLargeIdentity(s[1..]);
    }
  }

  /** Each `large`, in any case, becomes `t500x500`: text without a match
      is copied up to the first match, which is replaced, and the scan goes
      on after it. A match cannot start inside the text before it, since
      no proper suffix of `large` is a prefix of it. */
  lemma {:induction false} ReplaceLargeWord(a: string, w: string, b: string)
    requires !HasLarge(a) && |w| == 5 && LargeAt(w, 0)
    ensures ReplaceLarge(a + w + b) == a + Replacement + ReplaceLarge(b)
    decreases |a|
  {
    var s := a + w + b;
    if a == [] {
      assert s == w + b;
      assert LargeAt(s, 0);
      assert s[5..] == b;
    } else {
      assert !LargeAt(s, 0) by {
        if |a| >= 5 {
          assert s[..5] == a[..5];
          assert !LargeAt(a, 0);
        } else {
          assert s[|a|] == w[0];
        }
      }
      assert s[1..] == a[1..] + w + b;
      forall i: nat | i < |a[1..]|
        ensures !LargeAt(a[1..], i)
      {
        assert !LargeAt(a, i + 1);
      }
      ReplaceLargeWord(a[1..], w, b);
      assert a == [a[0]] + a[1..];
    }
  }

  /** When the output does not begin with the replacement's `t`, the input's
      first character was copied through. */
  lemma ReplaceHead(s: string)
    requires |ReplaceLarge(s)| > 0 && ReplaceLarge(s)[0] != 't'
    ensures s != [] && !LargeAt(s, 0) && ReplaceLarge(s) == [s[0]] + ReplaceLarge(s[1..])
  {
  }

  /** The first `n` output characters, none of them `t`, are the first `n`
      input characters. */
  lemma {:induction false} KeptChars(s: string, n: nat)
    requires n <= |ReplaceLarge(s)|
    requires forall j :: 0 <= j < n ==> ReplaceLarge(s)[j] != 't'
    ensures n <= |s| && forall j :: 0 <= j < n ==> s[j] == ReplaceLarge(s)[j]
  {
    if n > 0 {
      ReplaceHead(s);
      var out := ReplaceLarge(s);
      var rest := ReplaceLarge(s[1..]);
      forall j | 0 <= j < n - 1
        ensures rest[j] != 't'
      {
        assert rest[j] == out[j + 1];
      }
      KeptChars(s[1..], n - 1);
      forall j | 0 <= j < n
        ensures s[j] == out[j]
      {
        if j > 0 {
          assert s[j] == s[1..][j - 1] && out[j] == rest[j - 1];
        }
      }
    }
  }

  /** A match at the start of a scan that copied its first character would
      have been a match of the input. */
  lemma CopiedHeadNoMatch(s: string)
    requires s != [] && !LargeAt(s, 0)
    ensures !LargeAt(ReplaceLarge(s), 0)
  {
    var out := ReplaceLarge(s);
    var rest := ReplaceLarge(s[1..]);
    if LargeAt(out, 0) {
      forall j | 0 <= j < 4
        ensures rest[j] != 't'
      {
        assert rest[j] == out[j + 1];
      }
      KeptChars(s[1..], 4);
    }
  }

  /** No match is left in the rewritten URL: the replacement holds no `l`,
      and copied characters could only form a match the scan would have
      replaced. */
  lemma {:induction false} NoLargeLeft(s: string)
    ensures !HasLarge(ReplaceLarge(s))
    decreases |s|
  {
    if s != [] {
      var out := ReplaceLarge(s);
      if LargeAt(s, 0) {
        var rest := ReplaceLarge(s[5..]);
        NoLargeLeft(s[5..]);
        forall i: nat | i < |out|
          ensures !LargeAt(out, i)
        {
          if i < |Replacement| {
            assert out[i] == Replacement[i];
          } else {
            assert !LargeAt(rest, i - |Replacement|);
          }
        }
      } else {
        var rest := ReplaceLarge(s[1..]);
        NoLargeLeft(s[1..]);
        CopiedHeadNoMatch(s);
        forall i: nat | 0 < i < |out|
          ensures !LargeAt(out, i)
        {
          assert !LargeAt(rest, i - 1);
        }
      }
    }
  }

  /** `resolveData?.artwork_url || resolveData?.user?.avatar_url` */
  function ArtworkSource(m: TrackMetadata): string
  {
    if m.artworkUrl != "" then m.artworkUrl
    else if m.user.Some? then m.user.value.avatarUrl
    else ""
  }

  /** `resolveArtworkBuffer(artworkUrl)`: no URL gives no image and no
      fetch; otherwise the rewritten URL is fetched and must answer 200. */
  function ResolveArtworkBuffer(artworkUrl: string, fetch: string -> FetchOutcome<seq<Byte>>)
    : Result<Option<seq<Byte>>, Error>
  {
    if artworkUrl == "" then Success(None)
    else
      match fetch(ReplaceLarge(artworkUrl))
      case FetchError => Failure(NetworkError)
      case Fetched(res) => if res.status != 200 then Failure(FetchFailed) else Success(Some(res.body))
  }

  /** The `try`/`catch` around the call in `downloadTrack`: a failure is
      logged and leaves the track without artwork. */
  function CaughtArtwork(r: Result<Option<seq<Byte>>, Error>): Option<seq<Byte>>
  {
    if r.Success? then r.value else None
  }

  /** The track gets an image exactly when there is an artwork or avatar
      URL and its 500x500 rewrite answers 200; the image is that body. */
  lemma ArtworkImage(m: TrackMetadata, fetch: string -> FetchOutcome<seq<Byte>>)
    ensures var url := ArtworkSource(m);
      var art := CaughtArtwork(ResolveArtworkBuffer(url, fetch));
      && (art.Some? <==> url != "" && fetch(ReplaceLarge(url)).Fetched?
                         && fetch(ReplaceLarge(url)).response.status == 200)
      && (art.Some? ==> art.value == fetch(ReplaceLarge(url)).response.body)
      && (url == "" <==> m.artworkUrl == "" && (m.user.None? || m.user.value.avatarUrl == ""))
      && (m.artworkUrl != "" ==> url == m.artworkUrl)
  {
  }
}

/** `fetchStreamData`: which transcodings are tried, in which order, and
    what the first one that answers gives. */
module Streams {
  import opened Wrappers
  import opened Seqs
  import opened Api

  predicate IsMpeg(t: Transcoding) { Lookup(t.format, "mime_type") == "audio/mpeg" }

  predicate IsProgressive(t: Transcoding) { Lookup(t.format, "protocol") == "progressive" }

  predicate IsProgressiveMpeg(t: Transcoding) { IsMpeg(t) && IsProgressive(t) }

  predicate IsOtherMpeg(t: Transcoding) { IsMpeg(t) && !IsProgressive(t) }

  /** The list the `reduce` builds: each progressive MPEG transcoding is put
      at the front (so they end up last-seen first), each other MPEG one at
      the back, and the rest are dropped. */
  function CandidateOrder(ts: seq<Transcoding>): seq<Transcoding>
  {
    Reverse(Filter(ts, IsProgressiveMpeg)) + Filter(ts, IsOtherMpeg)
  }

  lemma StepProgressive(ts: seq<Transcoding>, t: Transcoding)
    requires IsProgressiveMpeg(t)
    ensures CandidateOrder(ts + [t]) == [t] + CandidateOrder(ts)
  {
    var p, o := Filter(ts, IsProgressiveMpeg), Filter(ts, IsOtherMpeg);
    FilterSnoc(ts, t, IsProgressiveMpeg);
    FilterSnoc(ts, t, IsOtherMpeg);
    assert o + [] == o;
    ReverseAppend(p, t);
    assert ([t] + Reverse(p)) + o == [t] + (Reverse(p) + o);
  }

  lemma StepOther(ts: seq<Transcoding>, t: Transcoding)
    requires IsOtherMpeg(t)
    ensures CandidateOrder(ts + [t]) == CandidateOrder(ts) + [t]
  {
    var p, o := Filter(ts, IsProgressiveMpeg), Filter(ts, IsOtherMpeg);
    FilterSnoc(ts, t, IsProgressiveMpeg);
    FilterSnoc(ts, t, IsOtherMpeg);
    assert p + [] == p;
    assert Reverse(p) + (o + [t]) == (Reverse(p) + o) + [t];
  }

  lemma StepDropped(ts: seq<Transcoding>, t: Transcoding)
    requires !IsMpeg(t)
    ensures CandidateOrder(ts + [t]) == CandidateOrder(ts)
  {
    var p, o := Filter(ts, IsProgressiveMpeg), Filter(ts, IsOtherMpeg);
    FilterSnoc(ts, t, IsProgressiveMpeg);
    FilterSnoc(ts, t, IsOtherMpeg);
    assert p + [] == p && o + [] == o;
  }

  /** One step of the `reduce`: a progressive MPEG transcoding goes to the
      front, another MPEG one to the back, and the rest are dropped. */
  lemma CandidateOrderStep(ts: seq<Transcoding>, t: Transcoding)
    ensures IsProgressiveMpeg(t) ==> CandidateOrder(ts + [t]) == [t] + CandidateOrder(ts)
    ensures IsOtherMpeg(t) ==> CandidateOrder(ts + [t]) == CandidateOrder(ts) + [t]
    ensures !IsMpeg(t) ==> CandidateOrder(ts + [t]) == CandidateOrder(ts)
  {
    if IsProgressiveMpeg(t) {
      StepProgressive(ts, t);
    } else if IsOtherMpeg(t) {
      StepOther(ts, t);
    } else {
      StepDropped(ts, t);
    }
  }

  /** The `transcodings.reduce(...)` of `fetchStreamData`, with the
      accumulator's `unshift` and `push`. */
  method FilterTranscodings(ts: seq<Transcoding>) returns (acc: seq<Transcoding>)
    ensures acc == CandidateOrder(ts)
  {
    acc := [];
    for i := 0 to |ts|
      invariant acc == CandidateOrder(ts[..i])
    {
      var t := ts[i];
      assert ts[..i + 1] == ts[..i] + [t];
      CandidateOrderStep(ts[..i], t);
      if Lookup(t.format, "mime_type") == "audio/mpeg" {
        if Lookup(t.format, "protocol") == "progressive" {
          acc := [t] + acc;
        } else {
          acc := acc + [t];
        }
      }
    }
    assert ts[..|ts|] == ts;
  }

  /** The candidates are exactly the MPEG transcodings, each as often as in
      the input. */
  lemma {:induction false} CandidatesAreMpeg(ts: seq<Transcoding>)
    ensures multiset(CandidateOrder(ts)) == multiset(Filter(ts, IsMpeg))
    decreases |ts|
  {
    if ts != [] {
      var init, t := ts[..|ts| - 1], ts[|ts| - 1];
      assert ts == init + [t];
      CandidatesAreMpeg(init);
      FilterSnoc(init, t, IsMpeg);
      var c, m := CandidateOrder(init), Filter(init, IsMpeg);
      if IsProgressiveMpeg(t) {
        StepProgressive(init, t);
        assert multiset([t] + c) == multiset(m + [t]);
      } else if IsOtherMpeg(t) {
        StepOther(init, t);
        assert multiset(c + [t]) == multiset(m + [t]);
      } else {
        StepDropped(init, t);
        assert m + [] == m;
      }
    }
  }

  lemma CandidateMembership(ts: seq<Transcoding>, t: Transcoding)
    ensures t in CandidateOrder(ts) <==> t in ts && IsMpeg(t)
  {
    CandidatesAreMpeg(ts);
    assert t in CandidateOrder(ts) <==> t in multiset(CandidateOrder(ts));
    FilterMembership(ts, IsMpeg, t);
  }

  /** Every progressive candidate comes before every other one. */
  lemma ProgressiveFirst(ts: seq<Transcoding>)
    ensures var c := CandidateOrder(ts);
      forall i, j :: 0 <= i < j < |c| && IsProgressive(c[j]) ==> IsProgressive(c[i])
  {
    var p := Reverse(Filter(ts, IsProgressiveMpeg));
    var o := Filter(ts, IsOtherMpeg);
    var c := p + o;
    forall i | 0 <= i < |p|
      ensures IsProgressive(c[i])
    {
      assert c[i] == p[i] && p[i] in p;
      ReverseMembership(Filter(ts, IsProgressiveMpeg), p[i]);
    }
    forall j | |p| <= j < |c|
      ensures !IsProgressive(c[j])
    {
      assert c[j] == o[j - |p|] && c[j] in o;
    }
  }

  /** The other candidates keep their input order. */
  lemma OthersInInputOrder(ts: seq<Transcoding>)
    ensures Filter(CandidateOrder(ts), IsOtherMpeg) == Filter(ts, IsOtherMpeg)
  {
    var p := Reverse(Filter(ts, IsProgressiveMpeg));
    var o := Filter(ts, IsOtherMpeg);
    forall x | x in p
      ensures !IsOtherMpeg(x)
    {
      ReverseMembership(Filter(ts, IsProgressiveMpeg), x);
    }
    FilterAppend(p, o, IsOtherMpeg);
    FilterNone(p, IsOtherMpeg);
    FilterAll(o, IsOtherMpeg);
  }

  /** The progressive candidates come in reverse input order. */
  lemma ProgressiveReversed(ts: seq<Transcoding>)
    ensures Filter(CandidateOrder(ts), IsProgressiveMpeg) == Reverse(Filter(ts, IsProgressiveMpeg))
  {
    var p := Reverse(Filter(ts, IsProgressiveMpeg));
    var o := Filter(ts, IsOtherMpeg);
    forall x | x in p
      ensures IsProgressiveMpeg(x)
    {
      ReverseMembership(Filter(ts, IsProgressiveMpeg), x);
    }
    FilterAppend(p, o, IsProgressiveMpeg);
    FilterAll(p, IsProgressiveMpeg);
    FilterNone(o, IsProgressiveMpeg);
  }

  /** What trying one candidate gives: the loop either stops with a result
      or goes on to the next candidate. */
  datatype Attempt = Stop(result: Result<JsonObject, Error>) | Next

  /** One pass of the `for` loop: build the stream URL (`new URL` with the
      client id set, `None` when the URL is rejected), fetch it, and return
      the body spread with the format on a 200. */
  function Try(t: Transcoding, streamUrl: string -> Option<string>,
               fetch: string -> FetchOutcome<JsonObject>): Attempt
  {
    match streamUrl(t.url)
    case None => Stop(Failure(InvalidUrl))
    case Some(u) =>
      match fetch(u)
      case FetchError => Stop(Failure(NetworkError))
      case Fetched(res) => if res.status == 200 then Stop(Success(res.body + t.format)) else Next
  }

  /** The position of the first candidate whose attempt stops the loop, or
      the number of candidates when none does. */
  function FirstStop(cs: seq<Transcoding>, streamUrl: string -> Option<string>,
                     fetch: string -> FetchOutcome<JsonObject>): (k: nat)
    ensures k <= |cs|
    ensures forall i :: 0 <= i < k ==> Try(cs[i], streamUrl, fetch).Next?
    ensures k < |cs| ==> Try(cs[k], streamUrl, fetch).Stop?
  {
    if cs == [] then 0
    else if Try(cs[0], streamUrl, fetch).Stop? then 0
    else 1 + FirstStop(cs[1..], streamUrl, fetch)
  }

  /** The result of the loop over the candidates `cs`. */
  function SelectStream(cs: seq<Transcoding>, streamUrl: string -> Option<string>,
                        fetch: string -> FetchOutcome<JsonObject>): Result<JsonObject, Error>
  {
    if cs == [] then Failure(NoUsableStream)
    else
      match Try(cs[0], streamUrl, fetch)
      case Stop(r) => r
      case Next => SelectStream(cs[1..], streamUrl, fetch)
  }

  /** The first candidate that stops the loop decides its result; when none
      does, no stream is usable. */
  lemma {:induction false} SelectStreamFirstStop(cs: seq<Transcoding>, streamUrl: string -> Option<string>,
                                                 fetch: string -> FetchOutcome<JsonObject>)
    ensures var k := FirstStop(cs, streamUrl, fetch);
      SelectStream(cs, streamUrl, fetch)
        == if k == |cs| then Failure(NoUsableStream) else Try(cs[k], streamUrl, fetch).result
  {
    if cs != [] && Try(cs[0], streamUrl, fetch).Next? {
      SelectStreamFirstStop(cs[1..], streamUrl, fetch);
    }
  }

  /** A successful selection is the 200 body of the first candidate that
      stops the loop, spread with that candidate's format: the format's
      fields win, the body's other fields are kept. */
  lemma SelectStreamSuccess(cs: seq<Transcoding>, streamUrl: string -> Option<string>,
                            fetch: string -> FetchOutcome<JsonObject>)
    requires SelectStream(cs, streamUrl, fetch).Success?
    ensures var k := FirstStop(cs, streamUrl, fetch);
      var r := SelectStream(cs, streamUrl, fetch).value;
      k < |cs| && streamUrl(cs[k].url).Some?
      && fetch(streamUrl(cs[k].url).value).Fetched?
      && fetch(streamUrl(cs[k].url).value).response.status == 200
      && (forall key :: key in r <==> key in fetch(streamUrl(cs[k].url).value).response.body || key in cs[k].format)
      && (forall key :: key in cs[k].format ==> r[key] == cs[k].format[key])
      && (forall key :: key in fetch(streamUrl(cs[k].url).value).response.body && key !in cs[k].format
            ==> r[key] == fetch(streamUrl(cs[k].url).value).response.body[key])
  {
    SelectStreamFirstStop(cs, streamUrl, fetch);
  }

  /** No candidate at all, or none answering 200 without an error, is the
      "no usable stream" failure. */
  lemma SelectStreamNone(cs: seq<Transcoding>, streamUrl: string -> Option<string>,
                         fetch: string -> FetchOutcome<JsonObject>)
    ensures SelectStream(cs, streamUrl, fetch) == Failure(NoUsableStream)
      <==> forall k :: 0 <= k < |cs| ==> Try(cs[k], streamUrl, fetch).Next?
  {
    SelectStreamFirstStop(cs, streamUrl, fetch);
    var k := FirstStop(cs, streamUrl, fetch);
    if k < |cs| {
      assert Try(cs[k], streamUrl, fetch).result != Failure(NoUsableStream);
    }
  }

  /** When every candidate before `i` goes on and candidate `i` stops, the
      loop ends at `i` with that candidate's result. */
  lemma SelectStreamStopsAt(cs: seq<Transcoding>, i: nat, streamUrl: string -> Option<string>,
                            fetch: string -> FetchOutcome<JsonObject>)
    requires i < |cs|
    requires forall k :: 0 <= k < i ==> Try(cs[k], streamUrl, fetch).Next?
    requires Try(cs[i], streamUrl, fetch).Stop?
    ensures FirstStop(cs, streamUrl, fetch) == i
    ensures SelectStream(cs, streamUrl, fetch) == Try(cs[i], streamUrl, fetch).result
  {
    SelectStreamFirstStop(cs, streamUrl, fetch);
  }

  /** When every candidate goes on, the loop runs out. */
  lemma SelectStreamExhausted(cs: seq<Transcoding>, streamUrl: string -> Option<string>,
                              fetch: string -> FetchOutcome<JsonObject>)
    requires forall k :: 0 <= k < |cs| ==> Try(cs[k], streamUrl, fetch).Next?
    ensures FirstStop(cs, streamUrl, fetch) == |cs|
    ensures SelectStream(cs, streamUrl, fetch) == Failure(NoUsableStream)
  {
    SelectStreamFirstStop(cs, streamUrl, fetch);
  }

  /** The `for` loop of `fetchStreamData` over the candidates, with its
      early return. `attempts` counts the candidates whose stream URL was
      built: those after the one that stops the loop are never tried. */
  method TryCandidates(candidates: seq<Transcoding>, streamUrl: string -> Option<string>,
                       fetch: string -> FetchOutcome<JsonObject>)
    returns (r: Result<JsonObject, Error>, attempts: nat)
    ensures r == SelectStream(candidates, streamUrl, fetch)
    ensures var k := FirstStop(candidates, streamUrl, fetch);
      attempts == if k < |candidates| then k + 1 else k
  {
    attempts := 0;
    while attempts < |candidates|
      invariant attempts <= |candidates|
      invariant forall k :: 0 <= k < attempts ==> Try(candidates[k], streamUrl, fetch).Next?
    {
      var transcoding := candidates[attempts];
      var url := streamUrl(transcoding.url);
      if url.None? {
        SelectStreamStopsAt(candidates, attempts, streamUrl, fetch);
        return Failure(InvalidUrl), attempts + 1;
      }
      var streamRes := fetch(url.value);
      if streamRes.FetchError? {
        SelectStreamStopsAt(candidates, attempts, streamUrl, fetch);
        return Failure(NetworkError), attempts + 1;
      }
      if streamRes.response.status == 200 {
        SelectStreamStopsAt(candidates, attempts, streamUrl, fetch);
        return Success(streamRes.response.body + transcoding.format), attempts + 1;
      }
      attempts := attempts + 1;
    }
    SelectStreamExhausted(candidates, streamUrl, fetch);
    r := Failure(NoUsableStream);
  }

  /** `fetchStreamData(transcodings)`: the candidate list, then the loop. */
  method FetchStreamData(ts: seq<Transcoding>, streamUrl: string -> Option<string>,
                         fetch: string -> FetchOutcome<JsonObject>)
    returns (r: Result<JsonObject, Error>, attempts: nat)
    ensures r == SelectStream(CandidateOrder(ts), streamUrl, fetch)
    ensures var k := FirstStop(CandidateOrder(ts), streamUrl, fetch);
      attempts == if k < |CandidateOrder(ts)| then k + 1 else k
  {
    var candidates := FilterTranscodings(ts);
    r, attempts := TryCandidates(candidates, streamUrl, fetch);
  }
}

/** `tagAndSaveTrack`: the ID3v2.3 frames written for a track, and the name
    of the saved file. The frames are recorded in the order they are handed
    to the tag writer; their byte encoding is the writer library's. */
module Tags {
  import opened Wrappers
  import opened Text
  import opened Seqs
  import opened Api
  import opened Format
  import opened Sanitize
  import opened Naming

  const NoPublisher := PublisherMetadata("", "", "", "")

  /** `metadata.publisher_metadata`, with absent fields empty. */
  function Publisher(m: TrackMetadata): PublisherMetadata
  {
    if m.publisher.Some? then m.publisher.value else NoPublisher
  }

  /** `metadata.user?.username` */
  function Username(m: TrackMetadata): string
  {
    if m.user.Some? then m.user.value.username else ""
  }

  /** `publisher_metadata?.artist || user?.username` */
  function SongArtist(m: TrackMetadata): string
  {
    if Publisher(m).artist != "" then Publisher(m).artist else Username(m)
  }

  /** `publisher_metadata?.release_title || title` */
  function SongTitle(m: TrackMetadata): string
  {
    if Publisher(m).releaseTitle != "" then Publisher(m).releaseTitle else m.title
  }

  /** `release_date || created_at?.split("-")?.[0]` */
  function ReleaseYear(m: TrackMetadata): string
  {
    if m.releaseDate != "" then m.releaseDate else Split(m.createdAt, '-')[0]
  }

  /** Without a release date, the year is the part of the creation date
      before its first `-`, or the whole date when it has none. */
  lemma ReleaseYearFromCreation(m: TrackMetadata)
    requires m.releaseDate == ""
    ensures StartsWith(m.createdAt, ReleaseYear(m))
    ensures '-' !in ReleaseYear(m)
    ensures |ReleaseYear(m)| < |m.createdAt| ==> m.createdAt[|ReleaseYear(m)|] == '-'
    ensures '-' !in m.createdAt ==> ReleaseYear(m) == m.createdAt
  {
    SplitFirst(m.createdAt, '-');
  }

  /** The ID3v2.3 frame ids the pipeline writes. */
  datatype FrameId = TPE1 | TIT2 | TYER | TCON | TCOM | WOAS | APIC | COMM

  /** The frames handed to the ID3 writer. */
  datatype Frame =
    | Artist(artists: seq<string>)                                     // TPE1
    | Title(title: string)                                             // TIT2
    | Year(year: string)                                               // TYER
    | Genre(genres: seq<string>)                                       // TCON
    | Composer(composers: seq<string>)                                 // TCOM
    | SourceWebpage(url: string)                                       // WOAS
    | Picture(pictureType: int, data: seq<Byte>, description: string)  // APIC
    | Comment(description: string, text: string)                       // COMM
  {
    function Id(): FrameId
    {
      match this
      case Artist(_) => TPE1
      case Title(_) => TIT2
      case Year(_) => TYER
      case Genre(_) => TCON
      case Composer(_) => TCOM
      case SourceWebpage(_) => WOAS
      case Picture(_, _, _) => APIC
      case Comment(_, _) => COMM
    }
  }

  /** The order in which the frames are set. */
  const FrameOrder: seq<FrameId> := [TPE1, TIT2, TYER, TCON, TCOM, WOAS, APIC, COMM]

  /** The picture type of a front cover. */
  const FrontCover := 3

  /** What each frame holds for a track, when its value is present: an
      empty value or a missing artwork gives no frame. */
  function FrameFor(id: FrameId, m: TrackMetadata, artwork: Option<seq<Byte>>): (r: Option<Frame>)
    ensures r.Some? ==> r.value.Id() == id
  {
    match id
    case TPE1 => if SongArtist(m) != "" then Some(Artist([SongArtist(m)])) else None
    case TIT2 => if SongTitle(m) != "" then Some(Title(SongTitle(m))) else None
    case TYER => if ReleaseYear(m) != "" then Some(Year(ReleaseYear(m))) else None
    case TCON => if m.genre != "" then Some(Genre([m.genre])) else None
    case TCOM =>
      if Publisher(m).writerComposer != "" then Some(Composer([Publisher(m).writerComposer])) else None
    case WOAS => if m.permalinkUrl != "" then Some(SourceWebpage(m.permalinkUrl)) else None
    case APIC => if artwork.Some? then Some(Picture(FrontCover, artwork.value, "Track artwork")) else None
    case COMM => if m.description != "" then Some(Comment("", m.description)) else None
  }

  function OptionToSeq<T>(o: Option<T>): seq<T>
  {
    if o.Some? then [o.value] else []
  }

  /** The frames present for `ids`, in the order of `ids`. */
  function Emitted(ids: seq<FrameId>, m: TrackMetadata, artwork: Option<seq<Byte>>): seq<Frame>
  {
    if ids == [] then [] else OptionToSeq(FrameFor(ids[0], m, artwork)) + Emitted(ids[1..], m, artwork)
  }

  /** The frames `tagAndSaveTrack` writes for a track. */
  function TagFrames(m: TrackMetadata, artwork: Option<seq<Byte>>): seq<Frame>
  {
    Emitted(FrameOrder, m, artwork)
  }

  lemma {:induction false} EmittedSound(ids: seq<FrameId>, m: TrackMetadata, artwork: Option<seq<Byte>>)
    ensures forall f :: f in Emitted(ids, m, artwork) ==> f.Id() in ids && FrameFor(f.Id(), m, artwork) == Some(f)
  {
    if ids != [] {
      EmittedSound(ids[1..], m, artwork);
    }
  }

  lemma {:induction false} EmittedComplete(ids: seq<FrameId>, m: TrackMetadata, artwork: Option<seq<Byte>>)
    ensures forall id :: id in ids && FrameFor(id, m, artwork).Some? ==> FrameFor(id, m, artwork).value in Emitted(ids, m, artwork)
  {
    if ids != [] {
      EmittedComplete(ids[1..], m, artwork);
    }
  }

  /** No two frames of `fs` share an id. */
  predicate DistinctIds(fs: seq<Frame>)
  {
    forall i, j :: 0 <= i < j < |fs| ==> fs[i].Id() != fs[j].Id()
  }

  lemma {:induction false} EmittedDistinct(ids: seq<FrameId>, m: TrackMetadata, artwork: Option<seq<Byte>>)
    requires forall i, j :: 0 <= i < j < |ids| ==> ids[i] != ids[j]
    ensures DistinctIds(Emitted(ids, m, artwork))
  {
    if ids != [] {
      EmittedDistinct(ids[1..], m, artwork);
      EmittedSound(ids[1..], m, artwork);
      assert ids[0] !in ids[1..] by {
        forall k | 0 <= k < |ids[1..]|
          ensures ids[1..][k] != ids[0]
        {
          assert ids[1..][k] == ids[k + 1];
        }
      }
      var rest := Emitted(ids[1..], m, artwork);
      if FrameFor(ids[0], m, artwork).Some? {
        var f := FrameFor(ids[0], m, artwork).value;
        var fs := [f] + rest;
        assert Emitted(ids, m, artwork) == fs;
        forall i, j | 0 <= i < j < |fs|
          ensures fs[i].Id() != fs[j].Id()
        {
          assert fs[j] == rest[j - 1];
          if i == 0 {
            assert rest[j - 1] in rest;
          } else {
            assert fs[i] == rest[i - 1];
          }
        }
      }
    }
  }

  /** The position of each frame id in `FrameOrder`. */
  function Rank(id: FrameId): nat
  {
    match id
    case TPE1 => 0
    case TIT2 => 1
    case TYER => 2
    case TCON => 3
    case TCOM => 4
    case WOAS => 5
    case APIC => 6
    case COMM => 7
  }

  /** `FrameOrder` lists every frame id once. */
  lemma FrameOrderRanks()
    ensures |FrameOrder| == 8
    ensures forall i :: 0 <= i < |FrameOrder| ==> Rank(FrameOrder[i]) == i
    ensures forall id :: FrameOrder[Rank(id)] == id
  {
  }

  /** A frame is written exactly when its value is present, holding the
      value `FrameFor` gives it, and no frame is written twice. */
  lemma TagFramesSpec(m: TrackMetadata, artwork: Option<seq<Byte>>)
    ensures forall f :: f in TagFrames(m, artwork) ==> FrameFor(f.Id(), m, artwork) == Some(f)
    ensures forall id :: FrameFor(id, m, artwork).Some? ==> FrameFor(id, m, artwork).value in TagFrames(m, artwork)
    ensures DistinctIds(TagFrames(m, artwork))
  {
    EmittedSound(FrameOrder, m, artwork);
    EmittedComplete(FrameOrder, m, artwork);
    FrameOrderRanks();
    forall id: FrameId
      ensures id in FrameOrder
    {
      assert FrameOrder[Rank(id)] == id;
    }
    forall i, j | 0 <= i < j < |FrameOrder|
      ensures FrameOrder[i] != FrameOrder[j]
    {
      assert Rank(FrameOrder[i]) == i && Rank(FrameOrder[j]) == j;
    }
    EmittedDistinct(FrameOrder, m, artwork);
  }

  /** Without artwork no cover-art frame is written. */
  lemma NoArtworkNoPicture(m: TrackMetadata)
    ensures forall f :: f in TagFrames(m, None) ==> !f.Picture?
  {
    TagFramesSpec(m, None);
  }

  /** The artist frame names the publisher's artist when there is one, and
      the uploader otherwise; there is none when both are empty. */
  lemma ArtistFrame(m: TrackMetadata, artwork: Option<seq<Byte>>)
    ensures Publisher(m).artist != "" ==> Artist([Publisher(m).artist]) in TagFrames(m, artwork)
    ensures Publisher(m).artist == "" && Username(m) != "" ==> Artist([Username(m)]) in TagFrames(m, artwork)
    ensures Publisher(m).artist == "" && Username(m) == "" ==> forall f :: f in TagFrames(m, artwork) ==> !f.Artist?
  {
    TagFramesSpec(m, artwork);
  }

  /** The token values offered to the file-name template. */
  function TokenData(m: TrackMetadata): map<string, string>
  {
    map[
      "artist" := SongArtist(m),
      "title" := SongTitle(m),
      "year" := ReleaseYear(m),
      "genre" := m.genre,
      "album" := Publisher(m).albumTitle,
      "username" := Username(m),
      "comment" := m.description]
  }

  /** The ID3 writer's state that this model keeps: the audio it tags and
      the frames set so far. */
  class TagWriter {
    const buffer: seq<Byte>
    var frames: seq<Frame>

    constructor (buffer: seq<Byte>)
      ensures this.buffer == buffer && frames == []
    {
      this.buffer := buffer;
      frames := [];
    }

    /** `writer.setFrame(id, value)` */
    method SetFrame(f: Frame)
      modifies this
      ensures frames == old(frames) + [f]
    {
      frames := frames + [f];
    }
  }

  /** The file handed to `saveAs`: its name, the audio and its tag frames. */
  datatype SavedFile = SavedFile(name: string, audio: seq<Byte>, frames: seq<Frame>)

  /** The frames present for `a + b` are those for `a`, then those for `b`. */
  lemma {:induction false} EmittedAppend(a: seq<FrameId>, b: seq<FrameId>, m: TrackMetadata, artwork: Option<seq<Byte>>)
    ensures Emitted(a + b, m, artwork) == Emitted(a, m, artwork) + Emitted(b, m, artwork)
  {
    if a == [] {
      assert a + b == b;
    } else {
      assert (a + b)[0] == a[0] && (a + b)[1..] == a[1..] + b;
      EmittedAppend(a[1..], b, m, artwork);
    }
  }

  /** Two `setFrame` steps in a row: the frames for two ids are those of
      the first, then those of the second. */
  lemma EmittedTwo(done: seq<Frame>, ids: seq<FrameId>, m: TrackMetadata, artwork: Option<seq<Byte>>)
    requires |ids| == 2
    ensures done + Emitted(ids, m, artwork)
      == (done + OptionToSeq(FrameFor(ids[0], m, artwork))) + OptionToSeq(FrameFor(ids[1], m, artwork))
  {
    assert Emitted(ids[1..][1..], m, artwork) == [];
  }

  /** The artist and title steps of `tagAndSaveTrack`. */
  method WriteCreditFrames(writer: TagWriter, m: TrackMetadata, artworkBuffer: Option<seq<Byte>>)
    modifies writer
    ensures writer.frames == old(writer.frames) + Emitted([TPE1, TIT2], m, artworkBuffer)
  {
    ghost var start := writer.frames;
    var songArtist := SongArtist(m);
    if songArtist != "" {
      writer.SetFrame(Artist([songArtist]));
    }
    ghost var mid := writer.frames;
    assert mid == start + OptionToSeq(FrameFor(TPE1, m, artworkBuffer));
    var songTitle := SongTitle(m);
    if songTitle != "" {
      writer.SetFrame(Title(songTitle));
    }
    assert writer.frames == mid + OptionToSeq(FrameFor(TIT2, m, artworkBuffer));
    EmittedTwo(start, [TPE1, TIT2], m, artworkBuffer);
  }

  /** The release year and genre steps. */
  method WriteYearGenreFrames(writer: TagWriter, m: TrackMetadata, artworkBuffer: Option<seq<Byte>>)
    modifies writer
    ensures writer.frames == old(writer.frames) + Emitted([TYER, TCON], m, artworkBuffer)
  {
    ghost var start := writer.frames;
    var albumReleaseYear := ReleaseYear(m);
    if albumReleaseYear != "" {
      writer.SetFrame(Year(albumReleaseYear));
    }
    ghost var mid := writer.frames;
    assert mid == start + OptionToSeq(FrameFor(TYER, m, artworkBuffer));
    var songGenre := m.genre;
    if songGenre != "" {
      writer.SetFrame(Genre([songGenre]));
    }
    assert writer.frames == mid + OptionToSeq(FrameFor(TCON, m, artworkBuffer));
    EmittedTwo(start, [TYER, TCON], m, artworkBuffer);
  }

  /** The composer and source page steps. */
  method WriteComposerSourceFrames(writer: TagWriter, m: TrackMetadata, artworkBuffer: Option<seq<Byte>>)
    modifies writer
    ensures writer.frames == old(writer.frames) + Emitted([TCOM, WOAS], m, artworkBuffer)
  {
    ghost var start := writer.frames;
    var songComposer := Publisher(m).writerComposer;
    if songComposer != "" {
      writer.SetFrame(Composer([songComposer]));
    }
    ghost var mid := writer.frames;
    assert mid == start + OptionToSeq(FrameFor(TCOM, m, artworkBuffer));
    var sourceWebpage := m.permalinkUrl;
    if sourceWebpage != "" {
      writer.SetFrame(SourceWebpage(sourceWebpage));
    }
    assert writer.frames == mid + OptionToSeq(FrameFor(WOAS, m, artworkBuffer));
    EmittedTwo(start, [TCOM, WOAS], m, artworkBuffer);
  }

  /** The cover art and comment steps. */
  method WriteArtworkCommentFrames(writer: TagWriter, m: TrackMetadata, artworkBuffer: Option<seq<Byte>>)
    modifies writer
    ensures writer.frames == old(writer.frames) + Emitted([APIC, COMM], m, artworkBuffer)
  {
    ghost var start := writer.frames;
    if artworkBuffer.Some? {
      writer.SetFrame(Picture(FrontCover, artworkBuffer.value, "Track artwork"));
    }
    ghost var mid := writer.frames;
    assert mid == start + OptionToSeq(FrameFor(APIC, m, artworkBuffer));
    var songDescription := m.description;
    if songDescription != "" {
      writer.SetFrame(Comment("", songDescription));
    }
    assert writer.frames == mid + OptionToSeq(FrameFor(COMM, m, artworkBuffer));
    EmittedTwo(start, [APIC, COMM], m, artworkBuffer);
  }

  /** The track's frames, in the four groups the writing steps set them. */
  lemma TagFramesGroups(m: TrackMetadata, artwork: Option<seq<Byte>>)
    ensures TagFrames(m, artwork)
      == Emitted([TPE1, TIT2], m, artwork) + (Emitted([TYER, TCON], m, artwork)
         + (Emitted([TCOM, WOAS], m, artwork) + Emitted([APIC, COMM], m, artwork)))
  {
    var credit, yearGenre, composerSource, artworkComment :=
      [TPE1, TIT2], [TYER, TCON], [TCOM, WOAS], [APIC, COMM];
    EmittedAppend(composerSource, artworkComment, m, artwork);
    EmittedAppend(yearGenre, composerSource + artworkComment, m, artwork);
    EmittedAppend(credit, yearGenre + (composerSource + artworkComment), m, artwork);
    assert FrameOrder == credit + (yearGenre + (composerSource + artworkComment));
  }

  /** The `setFrame` calls of `tagAndSaveTrack`, in source order. */
  method WriteFrames(writer: TagWriter, m: TrackMetadata, artworkBuffer: Option<seq<Byte>>)
    modifies writer
    ensures writer.frames == old(writer.frames) + TagFrames(m, artworkBuffer)
  {
    ghost var start := writer.frames;
    WriteCreditFrames(writer, m, artworkBuffer);
    WriteYearGenreFrames(writer, m, artworkBuffer);
    WriteComposerSourceFrames(writer, m, artworkBuffer);
    WriteArtworkCommentFrames(writer, m, artworkBuffer);
    TagFramesGroups(m, artworkBuffer);
    ghost var a, b, c, d := Emitted([TPE1, TIT2], m, artworkBuffer), Emitted([TYER, TCON], m, artworkBuffer),
      Emitted([TCOM, WOAS], m, artworkBuffer), Emitted([APIC, COMM], m, artworkBuffer);
    ConcatAssoc(start, a, b + (c + d));
    ConcatAssoc(start + a, b, c + d);
    ConcatAssoc(start + a + b, c, d);
  }

  /** `tagAndSaveTrack(trackBuffer, artworkBuffer, metadata)`, with the
      settings store's content (`None` when reading it fails). */
  method TagAndSaveTrack(trackBuffer: seq<Byte>, artworkBuffer: Option<seq<Byte>>, m: TrackMetadata,
                         stored: Option<StoredSettings>)
    returns (file: SavedFile)
    ensures file.audio == trackBuffer
    ensures file.frames == TagFrames(m, artworkBuffer)
    ensures file.name == SavedName(LoadSettings(stored), TokenData(m))
  {
    var writer := new TagWriter(trackBuffer);
    WriteFrames(writer, m, artworkBuffer);

    var settings := LoadSettings(stored);
    var filename := ApplyFormat(settings.format, TokenData(m));
    if settings.lowercase {
      filename := ToLowerCase(filename);
    }
    filename := SanitizeFilename(filename);
    if filename == "" {
      filename := FallbackName;
    }
    file := SavedFile(filename + Extension, writer.buffer, writer.frames);
  }

  /** A track titled "X" by user "Y", without publisher metadata, named
      with the content script's defaults, is saved as "y - x.mp3". */
  lemma DefaultTrackNameExample(m: TrackMetadata, settings: Settings)
    requires m.title == "X" && m.publisher.None?
    requires m.user.Some? && m.user.value.username == "Y"
    requires settings.format == "{artist} - {title}" && settings.lowercase
    ensures SavedName(settings, TokenData(m)) == "y - x" + Extension
  {
    var data := TokenData(m);
    assert Lookup(data, "artist") == "Y" && Lookup(data, "title") == "X";
    DefaultNameExample(settings, data);
  }
}

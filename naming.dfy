/** How `tagAndSaveTrack` turns the user's template and a track's token
    values into the name of the saved file. */
module Naming {
  import opened Wrappers
  import opened Text
  import opened Seqs
  import opened Api
  import opened Format
  import opened Sanitize

  /** `SCDL__FORMAT_DEFAULTS` as the content script declares it (lowercase on;
      the options page declares it with lowercase off). */
  const ContentDefaults: Settings := Settings("{artist} - {title}", true)

  /** What the settings store holds; a key it does not hold is `None`. */
  datatype StoredSettings = StoredSettings(format: Option<string>, lowercase: Option<bool>)

  /** `browser.storage.sync.get(SCDL__FORMAT_DEFAULTS)`, falling back to the
      defaults when the read fails (`stored == None`). */
  function LoadSettings(stored: Option<StoredSettings>): (s: Settings)
    ensures stored.None? ==> s == ContentDefaults
    ensures stored.Some? && stored.value.format.Some? ==> s.format == stored.value.format.value
    ensures stored.Some? && stored.value.format.None? ==> s.format == ContentDefaults.format
    ensures stored.Some? && stored.value.lowercase.Some? ==> s.lowercase == stored.value.lowercase.value
    ensures stored.Some? && stored.value.lowercase.None? ==> s.lowercase == ContentDefaults.lowercase
  {
    match stored
    case None => ContentDefaults
    case Some(st) =>
      Settings(
        if st.format.Some? then st.format.value else ContentDefaults.format,
        if st.lowercase.Some? then st.lowercase.value else ContentDefaults.lowercase)
  }

  const FallbackName := "untitled"
  const Extension := ".mp3"

  /** The name before its extension: formatted, lowercased when asked,
      sanitised, and `"untitled"` when nothing is left. */
  function SavedStem(settings: Settings, data: map<string, string>): string
  {
    var formatted := ApplyFormat(settings.format, data);
    var cased := if settings.lowercase then ToLowerCase(formatted) else formatted;
    var clean := SanitizeFilename(cased);
    if clean == "" then FallbackName else clean
  }

  /** `` `${filename}.mp3` `` */
  function SavedName(settings: Settings, data: map<string, string>): string
  {
    SavedStem(settings, data) + Extension
  }

  /** Sanitising brings in no character but the blank space. */
  lemma SanitizeFilenameChars(s: string)
    ensures forall c :: c in SanitizeFilename(s) ==> c == ' ' || c in s
  {
    var stripped := StripForbidden(s);
    var c := CollapseSpaces(stripped);
    TrimChars(c);
    CollapseChars(stripped);
    forall x | x in SanitizeFilename(s) && x != ' '
      ensures x in s
    {
      FilterMembership(s, IsAllowed, x);
    }
  }

  lemma FallbackNameSanitized()
    ensures IsSanitized(FallbackName)
    ensures forall c :: c in FallbackName ==> 'a' <= c <= 'z'
  {
    var u := FallbackName;
    assert forall i :: 0 <= i < |u| ==> 'a' <= u[i] <= 'z' by {
      assert u == ['u', 'n', 't', 'i', 't', 'l', 'e', 'd'];
    }
  }

  /** Every saved name is a non-empty sanitized stem followed by `.mp3`;
      the stem is the sanitized rendering, or `"untitled"` exactly when that
      rendering is empty. */
  lemma SavedNameShape(settings: Settings, data: map<string, string>)
    ensures EndsWith(SavedName(settings, data), Extension)
    ensures var stem := SavedStem(settings, data);
      && SavedName(settings, data) == stem + Extension
      && stem != ""
      && IsSanitized(stem)
  {
    var formatted := ApplyFormat(settings.format, data);
    var cased := if settings.lowercase then ToLowerCase(formatted) else formatted;
    SanitizeFilenameIsSanitized(cased);
    FallbackNameSanitized();
    var name := SavedName(settings, data);
    assert name[|name| - |Extension|..] == Extension;
  }

  /** With lowercasing on, the name holds no upper-case ASCII letter. */
  lemma LowercaseStem(settings: Settings, data: map<string, string>)
    requires settings.lowercase
    ensures forall c :: c in SavedStem(settings, data) ==> !('A' <= c <= 'Z')
  {
    var cased := ToLowerCase(ApplyFormat(settings.format, data));
    SanitizeFilenameChars(cased);
    FallbackNameSanitized();
  }

  lemma LowercaseExample()
    ensures ToLowerCase("Y - X") == "y - x"
  {
    var r := ToLowerCase("Y - X");
    assert |r| == 5;
    assert forall i | 0 <= i < 5 :: r[i] == LowerChar("Y - X"[i]);
  }

  lemma SanitizedExample()
    ensures SanitizeFilename("y - x") == "y - x"
  {
    var s := "y - x";
    assert IsSanitized(s);
    SanitizeFilenameFixed(s);
  }

  /** A rendered name that lower-casing and sanitising leave as it is
      becomes the saved name unchanged. */
  lemma SavedNameUnchanged(settings: Settings, data: map<string, string>, name: string)
    requires settings.lowercase
    requires ToLowerCase(ApplyFormat(settings.format, data)) == name
    requires SanitizeFilename(name) == name && name != ""
    ensures SavedName(settings, data) == name + Extension
  {
  }

  /** Artist "Y", the default separator and title "X" spell "Y - X". */
  lemma ArtistTitleText(artist: string, title: string)
    requires artist == "Y" && title == "X"
    ensures artist + (" - " + title) == "Y - X"
  {
    var r := artist + (" - " + title);
    assert |r| == 5;
    assert r[0] == 'Y' && r[1] == ' ' && r[2] == '-' && r[3] == ' ' && r[4] == 'X';
  }

  /** The default template, with artist "Y" and title "X", renders "Y - X". */
  lemma DefaultRenderingExample(settings: Settings, data: map<string, string>)
    requires settings.format == FormatDefaults.format
    requires Lookup(data, "artist") == "Y" && Lookup(data, "title") == "X"
    ensures ApplyFormat(settings.format, data) == "Y - X"
  {
    DefaultFormatRendering(data);
    ArtistTitleText(Lookup(data, "artist"), Lookup(data, "title"));
  }

  /** A track whose artist is "Y" and title "X", named with the content
      script's defaults (the default template, lowercasing on), is saved as
      "y - x.mp3". */
  lemma DefaultNameExample(settings: Settings, data: map<string, string>)
    requires settings.format == ContentDefaults.format && settings.lowercase
    requires Lookup(data, "artist") == "Y" && Lookup(data, "title") == "X"
    ensures SavedName(settings, data) == "y - x" + Extension
  {
    DefaultRenderingExample(settings, data);
    LowercaseExample();
    SanitizedExample();
    SavedNameUnchanged(settings, data, "y - x");
  }
}

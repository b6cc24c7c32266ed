/** `sanitizeFilename`: drop the characters file systems refuse, turn every
    run of whitespace into one space, and trim both ends. */
module Sanitize {
  import opened Text
  import opened Seqs

  /** The class `[<>:"/\\|?*\x00-\x1F]`. */
  predicate IsForbidden(c: char) {
    || c == '<' || c == '>' || c == ':' || c == '"' || c == '/' || c == '\\'
    || c == '|' || c == '?' || c == '*' || c <= '\U{1F}'
  }

  predicate IsAllowed(c: char) { !IsForbidden(c) }

  predicate IsVisible(c: char) { !IsSpace(c) }

  /** `.replace(/[<>:"/\\|?*\x00-\x1F]/g, "")` */
  function StripForbidden(s: string): string
  {
    Filter(s, IsAllowed)
  }

  /** Drops the whitespace that starts `s` (`trimStart`). */
  function DropSpaces(s: string): (r: string)
    ensures |r| <= |s| && r == s[|s| - |r|..]
    ensures r != [] ==> !IsSpace(r[0])
    ensures forall i :: 0 <= i < |s| - |r| ==> IsSpace(s[i])
  {
    if s != [] && IsSpace(s[0]) then DropSpaces(s[1..]) else s
  }

  /** Drops the whitespace that ends `s` (`trimEnd`). */
  function TrimEnd(s: string): (r: string)
    ensures |r| <= |s| && r == s[..|r|]
    ensures r != [] ==> !IsSpace(r[|r| - 1])
    ensures forall i :: |r| <= i < |s| ==> IsSpace(s[i])
  {
    if s != [] && IsSpace(s[|s| - 1]) then TrimEnd(s[..|s| - 1]) else s
  }

  /** `String.prototype.trim`. */
  function Trim(s: string): string
  {
    TrimEnd(DropSpaces(s))
  }

  predicate SpacesAreBlanks(s: string) {
    forall i :: 0 <= i < |s| && IsSpace(s[i]) ==> s[i] == ' '
  }

  predicate NoDoubleSpace(s: string) {
    forall i :: 0 < i < |s| && IsSpace(s[i]) ==> !IsSpace(s[i - 1])
  }

  /** `.replace(/\s+/g, " ")`: each maximal run of whitespace becomes one space. */
  function CollapseSpaces(s: string): (r: string)
    ensures (r == []) == (s == [])
    ensures s != [] ==> r[0] == if IsSpace(s[0]) then ' ' else s[0]
    ensures SpacesAreBlanks(r) && NoDoubleSpace(r)
    decreases |s|
  {
    if s == [] then []
    else if IsSpace(s[0]) then
      var rest := CollapseSpaces(DropSpaces(s[1..]));
      ConsBlanks(' ', rest);
      " " + rest
    else
      var rest := CollapseSpaces(s[1..]);
      ConsBlanks(s[0], rest);
      [s[0]] + rest
  }

  /** Putting a character in front keeps the blanks single, as long as a
      whitespace character in front is a blank followed by no whitespace. */
  lemma ConsBlanks(c: char, rest: string)
    requires SpacesAreBlanks(rest) && NoDoubleSpace(rest)
    requires IsSpace(c) ==> c == ' ' && (rest == [] || !IsSpace(rest[0]))
    ensures SpacesAreBlanks([c] + rest) && NoDoubleSpace([c] + rest)
  {
    var r := [c] + rest;
    forall i | 0 < i < |r|
      ensures r[i] == rest[i - 1]
    {
    }
  }

  /** Collapsing brings in no character but the blank space. */
  lemma {:induction false} CollapseChars(s: string)
    ensures forall c :: c in CollapseSpaces(s) ==> c == ' ' || c in s
    decreases |s|
  {
    if s != [] {
      var tail := s[1..];
      var rest := if IsSpace(s[0]) then DropSpaces(tail) else tail;
      var out := CollapseSpaces(rest);
      assert CollapseSpaces(s) == [if IsSpace(s[0]) then ' ' else s[0]] + out;
      CollapseChars(rest);
      forall x | x in out && x != ' '
        ensures x in s
      {
        var i :| 0 <= i < |rest| && rest[i] == x;
        assert rest[i] == s[|s| - |rest| + i];
      }
    }
  }

  predicate AllSpaces(w: string) {
    forall i :: 0 <= i < |w| ==> IsSpace(w[i])
  }

  /** Skipping a whitespace run stops at the first visible character after it. */
  lemma {:induction false} DropSpacesRun(w: string, y: string)
    requires AllSpaces(w)
    requires y == [] || !IsSpace(y[0])
    ensures DropSpaces(w + y) == y
    decreases |w|
  {
    if w == [] {
      assert w + y == y;
    } else {
      assert (w + y)[1..] == w[1..] + y;
      DropSpacesRun(w[1..], y);
    }
  }

  /** Skipping leading whitespace never reaches past a visible last character. */
  lemma {:induction false} DropSpacesAppend(x: string, z: string)
    requires x != [] && !IsSpace(x[|x| - 1])
    ensures DropSpaces(x + z) == DropSpaces(x) + z
    decreases |x|
  {
    if IsSpace(x[0]) {
      assert (x + z)[1..] == x[1..] + z;
      DropSpacesAppend(x[1..], z);
    }
  }

  /** A whitespace run followed by a visible character (or the end) collapses
      to a single blank space. */
  lemma CollapseRun(w: string, y: string)
    requires w != [] && AllSpaces(w)
    requires y == [] || !IsSpace(y[0])
    ensures CollapseSpaces(w + y) == " " + CollapseSpaces(y)
  {
    assert (w + y)[0] == w[0];
    assert (w + y)[1..] == w[1..] + y;
    DropSpacesRun(w[1..], y);
  }

  /** Text that ends in a visible character collapses on its own: no run
      crosses its end. */
  lemma {:induction false} CollapseAppend(x: string, z: string)
    requires x == [] || !IsSpace(x[|x| - 1])
    ensures CollapseSpaces(x + z) == CollapseSpaces(x) + CollapseSpaces(z)
    decreases |x|, 1
  {
    if x == [] {
      assert x + z == z;
    } else if IsSpace(x[0]) {
      CollapseAppendRun(x, z);
    } else {
      CollapseAppendVisible(x, z);
    }
  }

  /** `CollapseAppend` when the text starts with whitespace. */
  lemma {:induction false} CollapseAppendRun(x: string, z: string)
    requires x != [] && IsSpace(x[0]) && !IsSpace(x[|x| - 1])
    ensures CollapseSpaces(x + z) == CollapseSpaces(x) + CollapseSpaces(z)
    decreases |x|, 0
  {
    var t := x + z;
    var d := DropSpaces(x[1..]);
    assert t[0] == x[0] && t[1..] == x[1..] + z;
    DropSpacesAppend(x[1..], z);
    assert d != [] && d[|d| - 1] == x[|x| - 1] by {
      assert x[1..][|x[1..]| - 1] == x[|x| - 1];
    }
    CollapseAppend(d, z);
    ConcatAssoc(" ", CollapseSpaces(d), CollapseSpaces(z));
  }

  /** `CollapseAppend` when the text starts with a visible character. */
  lemma {:induction false} CollapseAppendVisible(x: string, z: string)
    requires x != [] && !IsSpace(x[0]) && !IsSpace(x[|x| - 1])
    ensures CollapseSpaces(x + z) == CollapseSpaces(x) + CollapseSpaces(z)
    decreases |x|, 0
  {
    var t := x + z;
    assert t[0] == x[0] && t[1..] == x[1..] + z;
    CollapseAppend(x[1..], z);
  }

  /** `\s+` between two visible stretches becomes exactly one blank space,
      and a whitespace-only string becomes one blank. */
  lemma CollapseBetween(x: string, w: string, y: string)
    requires x == [] || !IsSpace(x[|x| - 1])
    requires w != [] && AllSpaces(w)
    requires y == [] || !IsSpace(y[0])
    ensures CollapseSpaces(x + w + y) == CollapseSpaces(x) + " " + CollapseSpaces(y)
    ensures CollapseSpaces(w) == " "
  {
    ConcatAssoc(x, w, y);
    CollapseAppend(x, w + y);
    CollapseRun(w, y);
    ConcatAssoc(CollapseSpaces(x), " ", CollapseSpaces(y));
    CollapseRun(w, []);
    assert w + [] == w;
  }

  /** Trimming keeps only characters of its input. */
  lemma TrimChars(s: string)
    ensures forall x :: x in Trim(s) ==> x in s
  {
    var d := DropSpaces(s);
    var r := TrimEnd(d);
    forall x | x in r
      ensures x in s
    {
      var i :| 0 <= i < |r| && r[i] == x;
      assert r[i] == d[i] == s[|s| - |d| + i];
    }
  }

  /** `sanitizeFilename(filename)`. */
  function SanitizeFilename(s: string): string
  {
    Trim(CollapseSpaces(StripForbidden(s)))
  }

  predicate NoForbidden(s: string) {
    forall i :: 0 <= i < |s| ==> !IsForbidden(s[i])
  }

  /** No forbidden character, blank spaces only, never two in a row. */
  predicate IsClean(s: string) {
    NoForbidden(s) && SpacesAreBlanks(s) && NoDoubleSpace(s)
  }

  /** What sanitising guarantees of a name. */
  predicate IsSanitized(s: string) {
    IsClean(s) && (s != [] ==> !IsSpace(s[0]) && !IsSpace(s[|s| - 1]))
  }

  /** Every slice of a clean string is clean. */
  lemma SliceIsClean(s: string, a: nat, b: nat)
    requires a <= b <= |s|
    requires IsClean(s)
    ensures IsClean(s[a..b])
  {
    var t := s[a..b];
    forall i | 0 <= i < |t|
      ensures t[i] == s[a + i]
    {
    }
    forall i | 0 < i < |t| && IsSpace(t[i])
      ensures !IsSpace(t[i - 1])
    {
      assert t[i - 1] == s[a + i - 1];
    }
  }

  lemma StripForbiddenClean(s: string)
    ensures NoForbidden(StripForbidden(s))
  {
    var r := StripForbidden(s);
    forall i | 0 <= i < |r|
      ensures !IsForbidden(r[i])
    {
      assert r[i] in r;
    }
  }

  lemma CollapseIsClean(s: string)
    requires NoForbidden(s)
    ensures IsClean(CollapseSpaces(s))
  {
    var r := CollapseSpaces(s);
    CollapseChars(s);
    forall i | 0 <= i < |r|
      ensures !IsForbidden(r[i])
    {
      assert r[i] in r;
      if r[i] != ' ' {
        var j :| 0 <= j < |s| && s[j] == r[i];
      }
    }
  }

  /** Dropping the leading whitespace of a clean string leaves it clean. */
  lemma DropSpacesClean(c: string)
    requires IsClean(c)
    ensures IsClean(DropSpaces(c))
  {
    var d := DropSpaces(c);
    SliceIsClean(c, |c| - |d|, |c|);
  }

  /** Cutting the trailing whitespace of a clean string that starts with a
      visible character gives a sanitised string. */
  lemma TrimEndSanitized(d: string)
    requires IsClean(d) && (d != [] ==> !IsSpace(d[0]))
    ensures IsSanitized(TrimEnd(d))
  {
    var r := TrimEnd(d);
    SliceIsClean(d, 0, |r|);
    assert r == d[0..|r|];
    if r != [] {
      assert r[0] == d[0];
    }
  }

  lemma TrimIsSanitized(c: string)
    requires IsClean(c)
    ensures IsSanitized(Trim(c))
  {
    DropSpacesClean(c);
    TrimEndSanitized(DropSpaces(c));
  }

  /** The result has none of the forbidden characters, only single blank
      spaces, and no space at either end. */
  lemma SanitizeFilenameIsSanitized(s: string)
    ensures IsSanitized(SanitizeFilename(s))
  {
    StripForbiddenClean(s);
    CollapseIsClean(StripForbidden(s));
    TrimIsSanitized(CollapseSpaces(StripForbidden(s)));
  }

  lemma {:induction false} CollapseSpacesFixed(s: string)
    requires IsClean(s)
    ensures CollapseSpaces(s) == s
    decreases |s|
  {
    if s != [] {
      SliceIsClean(s, 1, |s|);
      CollapseSpacesFixed(s[1..]);
      if IsSpace(s[0]) {
        if |s| > 1 {
          assert !IsSpace(s[1]);
        }
        assert DropSpaces(s[1..]) == s[1..];
      }
      assert s == [s[0]] + s[1..];
    }
  }

  /** A sanitized name is left as it is. */
  lemma SanitizeFilenameFixed(s: string)
    requires IsSanitized(s)
    ensures SanitizeFilename(s) == s
  {
    FilterAll(s, IsAllowed);
    CollapseSpacesFixed(s);
  }

  /** Sanitising twice is sanitising once. */
  lemma SanitizeFilenameIdempotent(s: string)
    ensures SanitizeFilename(SanitizeFilename(s)) == SanitizeFilename(s)
  {
    SanitizeFilenameIsSanitized(s);
    SanitizeFilenameFixed(SanitizeFilename(s));
  }

  lemma {:induction false} CollapseKeepsText(s: string)
    ensures Filter(CollapseSpaces(s), IsVisible) == Filter(s, IsVisible)
    decreases |s|
  {
    if s != [] {
      if IsSpace(s[0]) {
        var rest := DropSpaces(s[1..]);
        CollapseKeepsText(rest);
        DropKeepsText(s[1..]);
        assert (" " + CollapseSpaces(rest))[1..] == CollapseSpaces(rest);
      } else {
        CollapseKeepsText(s[1..]);
      }
    }
  }

  lemma DropKeepsText(s: string)
    ensures Filter(DropSpaces(s), IsVisible) == Filter(s, IsVisible)
  {
    var r := DropSpaces(s);
    var k := |s| - |r|;
    assert s == s[..k] + r;
    FilterAppend(s[..k], r, IsVisible);
    FilterNone(s[..k], IsVisible);
  }

  lemma TrimEndKeepsText(s: string)
    ensures Filter(TrimEnd(s), IsVisible) == Filter(s, IsVisible)
  {
    var r := TrimEnd(s);
    assert s == r + s[|r|..];
    FilterAppend(r, s[|r|..], IsVisible);
    FilterNone(s[|r|..], IsVisible);
  }

  /** Sanitising keeps every character that is neither forbidden nor
      whitespace, in its original order: only whitespace changes. */
  lemma SanitizeFilenameKeepsText(s: string)
    ensures Filter(SanitizeFilename(s), IsVisible) == Filter(StripForbidden(s), IsVisible)
  {
    var c := CollapseSpaces(StripForbidden(s));
    CollapseKeepsText(StripForbidden(s));
    DropKeepsText(c);
    TrimEndKeepsText(DropSpaces(c));
  }

  /** The name is empty exactly when every character was forbidden or
      whitespace (the case the `"untitled"` fallback covers). */
  lemma SanitizeFilenameEmpty(s: string)
    ensures SanitizeFilename(s) == [] <==> forall c :: c in s ==> IsForbidden(c) || IsSpace(c)
  {
    var r := SanitizeFilename(s);
    var stripped := StripForbidden(s);
    SanitizeFilenameKeepsText(s);
    SanitizeFilenameIsSanitized(s);
    if r == [] {
      forall c | c in s
        ensures IsForbidden(c) || IsSpace(c)
      {
        FilterMembership(s, IsAllowed, c);
        FilterMembership(stripped, IsVisible, c);
      }
    } else {
      FilterMembership(r, IsVisible, r[0]);
      FilterMembership(stripped, IsVisible, r[0]);
      FilterMembership(s, IsAllowed, r[0]);
    }
  }
}

/** The file-name template shared by the content script and the options page:
    `applyFormat(format, data)` replaces every `{word}` token of `format` by
    the value `data` holds for that word, in one left-to-right pass. */
module Format {
  import opened Wrappers
  import opened Text
  import opened Seqs
  import opened Api

  /** The user preferences that drive file naming. */
  datatype Settings = Settings(format: string, lowercase: bool)

  /** `SCDL__FORMAT_DEFAULTS` as the options page declares it (lowercase off). */
  const FormatDefaults: Settings := Settings("{artist} - {title}", false)

  /** A template seen as the regular expression `/\{(\w+)\}/g` scans it:
      characters it copies through, and the tokens it matches. */
  datatype Piece = Literal(c: char) | Token(name: string)

  /** A token name: one or more `\w` characters. */
  predicate IsName(k: string) {
    |k| > 0 && forall i :: 0 <= i < |k| ==> IsWordChar(k[i])
  }

  /** Length of the run of `\w` characters that starts `s` (greedy `\w+`). */
  function WordRun(s: string): (n: nat)
    ensures n <= |s|
    ensures forall i :: 0 <= i < n ==> IsWordChar(s[i])
    ensures n < |s| ==> !IsWordChar(s[n])
  {
    if s != [] && IsWordChar(s[0]) then 1 + WordRun(s[1..]) else 0
  }

  /** When `s` starts with a match of `\{(\w+)\}`, the length of the captured name. */
  function TokenAt(s: string): (r: Option<nat>)
    ensures r.Some? ==> r.value + 2 <= |s| && s[0] == '{' && s[r.value + 1] == '}'
    ensures r.Some? ==> IsName(s[1..r.value + 1])
  {
    if s != [] && s[0] == '{' then
      var n := WordRun(s[1..]);
      if 0 < n && n + 1 < |s| && s[n + 1] == '}' then Some(n) else None
    else None
  }

  /** Exactly the strings `{k}` with `k` a name are tokens, whatever follows them. */
  lemma TokenAtName(k: string, rest: string)
    requires IsName(k)
    ensures TokenAt("{" + k + "}" + rest) == Some(|k|)
  {
    var s := "{" + k + "}" + rest;
    var t := s[1..];
    assert t == k + "}" + rest;
    assert forall i :: 0 <= i < |k| ==> t[i] == k[i];
    assert t[|k|] == '}';
  }

  /** The scan of `/\{(\w+)\}/g`: at each position either a token matches and
      the scan resumes after its `}`, or one character is copied through. */
  function Tokenize(f: string): (ps: seq<Piece>)
    decreases |f|
  {
    if f == [] then []
    else match TokenAt(f)
      case Some(n) => [Token(f[1..n + 1])] + Tokenize(f[n + 2..])
      case None => [Literal(f[0])] + Tokenize(f[1..])
  }

  /** The text one piece stands for. */
  function PieceText(p: Piece): string
  {
    match p
    case Literal(c) => [c]
    case Token(k) => "{" + k + "}"
  }

  /** The text a sequence of pieces stands for. */
  function Untokenize(ps: seq<Piece>): string
  {
    if ps == [] then [] else PieceText(ps[0]) + Untokenize(ps[1..])
  }

  /** A piece sequence the scan can produce: every token has a name, and no
      literal stands where a token would have matched. */
  predicate Canonical(ps: seq<Piece>)
  {
    ps == [] ||
    (&& (match ps[0]
         case Token(k) => IsName(k)
         case Literal(_) => TokenAt(Untokenize(ps)).None?)
     && Canonical(ps[1..]))
  }

  function Render(ps: seq<Piece>, data: map<string, string>): string
  {
    if ps == [] then []
    else match ps[0]
      case Literal(c) => [c] + Render(ps[1..], data)
      case Token(k) => Lookup(data, k) + Render(ps[1..], data)
  }

  /** `applyFormat(format, data)`. */
  function ApplyFormat(format: string, data: map<string, string>): string
  {
    Render(Tokenize(format), data)
  }

  /** The text of a piece sequence with one more piece in front. */
  lemma UntokenizeCons(p: Piece, rest: seq<Piece>)
    ensures Untokenize([p] + rest) == PieceText(p) + Untokenize(rest)
  {
    assert ([p] + rest)[1..] == rest;
  }

  /** The text of the token the scan finds at the start of `f`. */
  lemma TokenText(f: string, n: nat)
    requires TokenAt(f) == Some(n)
    ensures PieceText(Token(f[1..n + 1])) == f[..n + 2]
  {
    var k := f[1..n + 1];
    var t := PieceText(Token(k));
    assert t == "{" + k + "}";
    assert |t| == n + 2;
    forall i | 0 <= i < n + 2
      ensures t[i] == f[i]
    {
      if 0 < i <= n {
        assert t[i] == k[i - 1];
      }
    }
  }

  /** Scanning loses nothing: the literals and tokens spell the template again. */
  lemma {:induction false} UntokenizeTokenize(f: string)
    ensures Untokenize(Tokenize(f)) == f
    decreases |f|
  {
    if f != [] {
      match TokenAt(f)
      case Some(n) =>
        var tail := f[n + 2..];
        UntokenizeTokenize(tail);
        UntokenizeCons(Token(f[1..n + 1]), Tokenize(tail));
        TokenText(f, n);
        assert f == f[..n + 2] + tail;
      case None =>
        var tail := f[1..];
        UntokenizeTokenize(tail);
        UntokenizeCons(Literal(f[0]), Tokenize(tail));
        assert f == [f[0]] + tail;
    }
  }

  /** The scan takes every token it can: its output is canonical. */
  lemma {:induction false} TokenizeCanonical(f: string)
    ensures Canonical(Tokenize(f))
    decreases |f|
  {
    if f != [] {
      match TokenAt(f)
      case Some(n) =>
        TokenizeCanonical(f[n + 2..]);
      case None =>
        TokenizeCanonical(f[1..]);
        UntokenizeTokenize(f);
    }
  }

  /** One step of the scan over a piece followed by any text. */
  lemma TokenizeCons(p: Piece, rest: string)
    requires p.Token? ==> IsName(p.name)
    requires p.Literal? ==> TokenAt(PieceText(p) + rest).None?
    ensures Tokenize(PieceText(p) + rest) == [p] + Tokenize(rest)
  {
    var s := PieceText(p) + rest;
    match p
    case Token(k) =>
      TokenAtName(k, rest);
      assert s[1..|k| + 1] == k;
      assert s[|k| + 2..] == rest;
      assert Tokenize(s) == [Token(s[1..|k| + 1])] + Tokenize(s[|k| + 2..]);
    case Literal(c) =>
      assert s[1..] == rest;
  }

  /** The other direction: a canonical piece sequence is what the scan finds
      in its own text, so the scan is the only reading of a template. */
  lemma {:induction false} TokenizeUntokenize(ps: seq<Piece>)
    requires Canonical(ps)
    ensures Tokenize(Untokenize(ps)) == ps
  {
    if ps != [] {
      TokenizeUntokenize(ps[1..]);
      TokenizeCons(ps[0], Untokenize(ps[1..]));
      assert ps == [ps[0]] + ps[1..];
    }
  }

  /** A token is replaced by its value, and the value is not scanned again:
      the pass resumes in the template right after the token. */
  lemma ApplyFormatToken(k: string, rest: string, data: map<string, string>)
    requires IsName(k)
    ensures ApplyFormat("{" + k + "}" + rest, data) == Lookup(data, k) + ApplyFormat(rest, data)
  {
    var s := "{" + k + "}" + rest;
    TokenAtName(k, rest);
    assert s[1..|k| + 1] == k;
    assert s[|k| + 2..] == rest;
  }

  /** Where no token starts, the first character is copied through. */
  lemma ApplyFormatStep(f: string, data: map<string, string>)
    requires f != [] && TokenAt(f).None?
    ensures ApplyFormat(f, data) == [f[0]] + ApplyFormat(f[1..], data)
  {
    assert Tokenize(f) == [Literal(f[0])] + Tokenize(f[1..]);
  }

  /** A template in which no token matches anywhere is returned unchanged. */
  lemma {:induction false} ApplyFormatNoTokens(f: string, data: map<string, string>)
    requires forall i :: 0 <= i < |f| ==> TokenAt(f[i..]).None?
    ensures ApplyFormat(f, data) == f
    decreases |f|
  {
    if f != [] {
      assert f[0..] == f;
      ApplyFormatStep(f, data);
      forall i | 0 <= i < |f[1..]|
        ensures TokenAt(f[1..][i..]).None?
      {
        assert f[1..][i..] == f[i + 1..];
      }
      ApplyFormatNoTokens(f[1..], data);
      assert f == [f[0]] + f[1..];
    }
  }

  /** A template without `{` has no tokens. */
  lemma ApplyFormatNoBrace(f: string, data: map<string, string>)
    requires '{' !in f
    ensures ApplyFormat(f, data) == f
  {
    forall i | 0 <= i < |f|
      ensures TokenAt(f[i..]).None?
    {
      assert f[i..][0] == f[i];
    }
    ApplyFormatNoTokens(f, data);
  }

  /** Only the values of the names the template mentions matter, and an empty
      value renders exactly like a missing one. */
  lemma {:induction false} RenderLookupOnly(ps: seq<Piece>, d1: map<string, string>, d2: map<string, string>)
    requires forall k :: Token(k) in ps ==> Lookup(d1, k) == Lookup(d2, k)
    ensures Render(ps, d1) == Render(ps, d2)
  {
    if ps != [] {
      assert ps[0] in ps;
      RenderLookupOnly(ps[1..], d1, d2);
    }
  }

  lemma EmptyValueIsMissing(f: string, data: map<string, string>, k: string)
    ensures ApplyFormat(f, data[k := ""]) == ApplyFormat(f, data - {k})
  {
    RenderLookupOnly(Tokenize(f), data[k := ""], data - {k});
  }

  /** `"{{a}}"` keeps the outer braces around the value of `a`. */
  lemma DoubleBraces(data: map<string, string>)
    ensures ApplyFormat("{{a}}", data) == "{" + Lookup(data, "a") + "}"
  {
    var f := "{{a}}";
    assert WordRun(f[1..]) == 0;
    assert TokenAt(f) == None;
    assert f[1..] == "{" + "a" + "}" + "}";
    ApplyFormatStep(f, data);
    ApplyFormatToken("a", "}", data);
    ApplyFormatNoBrace("}", data);
    ConcatAssoc("{", Lookup(data, "a"), "}");
  }

  /** A value that itself looks like a token is copied literally. */
  lemma ValueNotExpanded()
    ensures ApplyFormat("{a}", map["a" := "{b}", "b" := "x"]) == "{b}"
  {
    assert "{a}" == "{" + "a" + "}" + "";
    ApplyFormatToken("a", "", map["a" := "{b}", "b" := "x"]);
    assert ApplyFormat("", map["a" := "{b}", "b" := "x"]) == "";
  }

  /** Text without `{` is copied through ahead of the rest of the template. */
  lemma {:induction false} ApplyFormatPrefix(lit: string, rest: string, data: map<string, string>)
    requires '{' !in lit
    ensures ApplyFormat(lit + rest, data) == lit + ApplyFormat(rest, data)
    decreases |lit|
  {
    if lit == [] {
      assert lit + rest == rest;
    } else {
      var f := lit + rest;
      assert f[0] == lit[0] && f[1..] == lit[1..] + rest;
      assert TokenAt(f).None?;
      ApplyFormatStep(f, data);
      ApplyFormatPrefix(lit[1..], rest, data);
      ConcatAssoc([lit[0]], lit[1..], ApplyFormat(rest, data));
      assert lit == [lit[0]] + lit[1..];
    }
  }

  /** A template that is one token renders as that token's value. */
  lemma ApplyFormatSingle(k: string, data: map<string, string>)
    requires IsName(k)
    ensures ApplyFormat("{" + k + "}", data) == Lookup(data, k)
  {
    assert "{" + k + "}" == "{" + k + "}" + "";
    ApplyFormatToken(k, "", data);
    assert ApplyFormat("", data) == "";
  }

  /** A template of two tokens around a brace-free separator. */
  lemma ApplyFormatPair(a: string, sep: string, b: string, data: map<string, string>)
    requires IsName(a) && IsName(b) && '{' !in sep
    ensures ApplyFormat("{" + a + "}" + (sep + ("{" + b + "}")), data) == Lookup(data, a) + (sep + Lookup(data, b))
  {
    var last := "{" + b + "}";
    ApplyFormatToken(a, sep + last, data);
    ApplyFormatPrefix(sep, last, data);
    ApplyFormatSingle(b, data);
  }

  /** The default template renders as the artist, `" - "` and the title. */
  lemma DefaultFormatRendering(data: map<string, string>)
    ensures ApplyFormat(FormatDefaults.format, data) == Lookup(data, "artist") + (" - " + Lookup(data, "title"))
  {
    var a, sep, b := "artist", " - ", "title";
    assert IsName(a) && IsName(b) && '{' !in sep;
    assert FormatDefaults.format == "{" + a + "}" + (sep + ("{" + b + "}"));
    ApplyFormatPair(a, sep, b, data);
  }
}

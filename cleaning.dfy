/** `clean_text` (preprocessing.py:21-26): sentinel and non-string values
    become the empty string; everything else has its markup stripped (an
    external parser, passed in as `getText`) and its whitespace collapsed. */
module Cleaning {
  import opened Text
  import opened Frames

  /** The body values Reddit leaves behind for deleted and removed posts. */
  const Sentinels: seq<string> := ["[deleted]", "[removed]"]

  /** `re.sub(r'\s+', ' ', s)`: each maximal whitespace run becomes one space. */
  function SquashRuns(s: string): (r: string)
    ensures r == [] <==> s == []
    ensures s != [] ==> (IsSpace(r[0]) <==> IsSpace(s[0]))
    decreases |s|
  {
    if s == [] then []
    else if IsSpace(s[0]) then
      var t := TrimStart(s);
      assert |t| < |s|;
      [' '] + SquashRuns(t)
    else [s[0]] + SquashRuns(s[1..])
  }

  /** The only whitespace is a plain space, and no two whitespace characters touch. */
  predicate SingleSpaced(s: string) {
    && (forall i :: 0 <= i < |s| && IsSpace(s[i]) ==> s[i] == ' ')
    && (forall i :: 0 <= i < |s| - 1 ==> !(IsSpace(s[i]) && IsSpace(s[i + 1])))
  }

  /** What `clean_text` promises of its output: single-spaced, nothing at the edges. */
  predicate Normalized(s: string) {
    SingleSpaced(s) && (s == [] || (!IsSpace(s[0]) && !IsSpace(s[|s| - 1])))
  }

  /** The non-whitespace characters of `s`, in order. */
  function NonSpace(s: string): string {
    if s == [] then []
    else if IsSpace(s[0]) then NonSpace(s[1..])
    else [s[0]] + NonSpace(s[1..])
  }

  lemma {:induction false} NonSpaceAppend(a: string, b: string)
    ensures NonSpace(a + b) == NonSpace(a) + NonSpace(b)
  {
    if a != [] {
      assert (a + b)[1..] == a[1..] + b;
      NonSpaceAppend(a[1..], b);
    } else {
      assert a + b == b;
    }
  }

  lemma {:induction false} NonSpaceOfBlank(s: string)
    requires IsBlank(s)
    ensures NonSpace(s) == []
  {
    if s != [] {
      NonSpaceOfBlank(s[1..]);
    }
  }

  lemma {:induction false} SquashIsSingleSpaced(s: string)
    ensures SingleSpaced(SquashRuns(s))
    decreases |s|
  {
    if s != [] {
      var r := SquashRuns(s);
      if IsSpace(s[0]) {
        var t := TrimStart(s);
        SquashIsSingleSpaced(t);
        assert r == [' '] + SquashRuns(t);
      } else {
        SquashIsSingleSpaced(s[1..]);
        assert r == [s[0]] + SquashRuns(s[1..]);
      }
    }
  }

  lemma {:induction false} SquashKeepsNonSpace(s: string)
    ensures NonSpace(SquashRuns(s)) == NonSpace(s)
    decreases |s|
  {
    if s != [] {
      if IsSpace(s[0]) {
        var t := TrimStart(s);
        var k := |s| - |t|;
        SquashKeepsNonSpace(t);
        assert s == s[..k] + t;
        NonSpaceAppend(s[..k], t);
        NonSpaceOfBlank(s[..k]);
        NonSpaceAppend([' '], SquashRuns(t));
      } else {
        SquashKeepsNonSpace(s[1..]);
        NonSpaceAppend([s[0]], SquashRuns(s[1..]));
      }
    }
  }

  /** Squashing leaves an already single-spaced string alone. */
  lemma {:induction false} SquashFixesSingleSpaced(s: string)
    requires SingleSpaced(s)
    ensures SquashRuns(s) == s
    decreases |s|
  {
    if s != [] {
      assert SingleSpaced(s[1..]);
      if IsSpace(s[0]) {
        assert TrimStart(s[1..]) == s[1..];
        assert TrimStart(s) == s[1..];
        SquashFixesSingleSpaced(s[1..]);
      } else {
        SquashFixesSingleSpaced(s[1..]);
      }
    }
  }

  // ----- the words of a text ----------------------------------------------

  /** No character of `w` is whitespace. */
  predicate IsField(w: string) {
    forall i :: 0 <= i < |w| ==> !IsSpace(w[i])
  }

  /** Length of the non-whitespace run at the start of `s`. */
  function FieldLen(s: string): (n: nat)
    ensures n <= |s|
    ensures IsField(s[..n])
    ensures n < |s| ==> IsSpace(s[n])
  {
    if s != [] && !IsSpace(s[0]) then
      var n := 1 + FieldLen(s[1..]);
      assert s[..n] == [s[0]] + s[1..][..n - 1];
      n
    else 0
  }

  /** `str.split()`: the maximal non-whitespace runs of `s`, in order. */
  function Split(s: string): (words: seq<string>)
    decreases |s|
  {
    if s == [] then []
    else if IsSpace(s[0]) then Split(s[1..])
    else
      var n := FieldLen(s);
      [s[..n]] + Split(s[n..])
  }

  /** A run followed by whitespace or nothing is taken whole. */
  lemma {:induction false} FieldLenAppend(w: string, t: string)
    requires IsField(w)
    requires t == [] || IsSpace(t[0])
    ensures FieldLen(w + t) == |w|
  {
    if w == [] {
      assert w + t == t;
    } else {
      assert IsField(w[1..]) by {
        forall i | 0 <= i < |w| - 1 ensures !IsSpace(w[1..][i]) {
          assert w[1..][i] == w[i + 1];
        }
      }
      FieldLenAppend(w[1..], t);
      assert (w + t)[0] == w[0] && !IsSpace(w[0]);
      assert (w + t)[1..] == w[1..] + t;
    }
  }

  /** Whitespace in front does not change the words. */
  lemma SplitSpaceCons(c: char, t: string)
    requires IsSpace(c)
    ensures Split([c] + t) == Split(t)
  {
    assert ([c] + t)[1..] == t;
  }

  /** A run followed by whitespace or nothing is the first word. */
  lemma SplitFieldCons(w: string, t: string)
    requires w != [] && IsField(w)
    requires t == [] || IsSpace(t[0])
    ensures Split(w + t) == [w] + Split(t)
  {
    FieldLenAppend(w, t);
    assert (w + t)[0] == w[0];
    assert (w + t)[..|w|] == w;
    assert (w + t)[|w|..] == t;
  }

  /** Every text is empty, or starts with whitespace, or starts with its
      first word followed by whitespace or nothing. */
  lemma Decompose(s: string) returns (w: string, t: string)
    requires s != [] && !IsSpace(s[0])
    ensures w != [] && IsField(w) && (t == [] || IsSpace(t[0])) && s == w + t
  {
    var n := FieldLen(s);
    w, t := s[..n], s[n..];
  }

  lemma {:induction false} SplitBlank(b: string)
    requires IsBlank(b)
    ensures Split(b) == []
  {
    if b != [] {
      SplitBlank(b[1..]);
    }
  }

  /** Leading whitespace does not change the words. */
  lemma {:induction false} SplitTrimStart(s: string)
    ensures Split(TrimStart(s)) == Split(s)
  {
    if s != [] && IsSpace(s[0]) {
      SplitTrimStart(s[1..]);
    }
  }

  lemma SplitSpaceAppend(a: string, b: string)
    requires a != [] && IsSpace(a[0])
    ensures Split(a + b) == Split(a[1..] + b) && Split(a) == Split(a[1..])
  {
    assert a + b == [a[0]] + (a[1..] + b);
    assert a == [a[0]] + a[1..];
    SplitSpaceCons(a[0], a[1..] + b);
    SplitSpaceCons(a[0], a[1..]);
  }

  lemma SplitFieldAppend(w: string, t: string, b: string)
    requires w != [] && IsField(w) && (t == [] || IsSpace(t[0]))
    requires IsBlank(b)
    ensures Split((w + t) + b) == [w] + Split(t + b)
  {
    assert (w + t) + b == w + (t + b);
    assert t + b == [] || IsSpace((t + b)[0]);
    SplitFieldCons(w, t + b);
  }

  /** Trailing whitespace does not change the words. */
  lemma {:induction false} SplitAppendBlank(a: string, b: string)
    requires IsBlank(b)
    ensures Split(a + b) == Split(a)
    decreases |a|
  {
    if a == [] {
      assert a + b == b;
      SplitBlank(b);
    } else if IsSpace(a[0]) {
      SplitAppendBlank(a[1..], b);
      SplitSpaceAppend(a, b);
    } else {
      var w, t := Decompose(a);
      SplitAppendBlank(t, b);
      SplitFieldAppend(w, t, b);
      SplitFieldCons(w, t);
    }
  }

  /** `TrimEnd` leaves off a blank tail. */
  lemma TrimEndTail(t: string) returns (tail: string)
    ensures t == TrimEnd(t) + tail && IsBlank(tail)
  {
    var r := TrimEnd(t);
    tail := t[|r|..];
    forall i | 0 <= i < |tail| ensures IsSpace(tail[i]) {
      assert tail[i] == t[|r| + i];
    }
  }

  lemma SplitStrip(s: string)
    ensures Split(Strip(s)) == Split(s)
  {
    var tail := TrimEndTail(TrimStart(s));
    SplitAppendBlank(Strip(s), tail);
    SplitTrimStart(s);
  }

  lemma SquashCons(c: char, t: string)
    requires !IsSpace(c)
    ensures SquashRuns([c] + t) == [c] + SquashRuns(t)
  {
    assert ([c] + t)[1..] == t;
  }

  lemma FieldTail(w: string)
    requires w != [] && IsField(w)
    ensures !IsSpace(w[0]) && IsField(w[1..])
  {
    forall i | 0 <= i < |w| - 1 ensures !IsSpace(w[1..][i]) {
      assert w[1..][i] == w[i + 1];
    }
  }

  lemma SquashFieldStep(w: string, t: string)
    requires w != [] && IsField(w)
    ensures SquashRuns(w + t) == [w[0]] + SquashRuns(w[1..] + t)
  {
    assert w + t == [w[0]] + (w[1..] + t);
    SquashCons(w[0], w[1..] + t);
  }

  lemma ConsAppend(w: string, x: string)
    requires w != []
    ensures [w[0]] + (w[1..] + x) == w + x
  {
    assert w == [w[0]] + w[1..];
  }

  /** Squashing copies a run without whitespace unchanged. */
  lemma {:induction false} SquashField(w: string, t: string)
    requires IsField(w)
    ensures SquashRuns(w + t) == w + SquashRuns(t)
  {
    if w == [] {
      assert w + t == t;
    } else {
      SquashFieldStep(w, t);
      FieldTail(w);
      SquashField(w[1..], t);
      ConsAppend(w, SquashRuns(t));
    }
  }

  /** Squashing the whitespace runs does not change the words. */
  lemma {:induction false} SplitSquash(s: string)
    ensures Split(SquashRuns(s)) == Split(s)
    decreases |s|
  {
    if s != [] {
      if IsSpace(s[0]) {
        var t := TrimStart(s);
        SplitSquash(t);
        SplitTrimStart(s);
        SplitSpaceCons(' ', SquashRuns(t));
      } else {
        var w, t := Decompose(s);
        SplitSquash(t);
        SquashField(w, t);
        SplitFieldCons(w, t);
        SplitFieldCons(w, SquashRuns(t));
      }
    }
  }

  /** A suffix of a single-spaced text is single-spaced. */
  lemma SingleSpacedSuffix(r: string, k: nat)
    requires SingleSpaced(r) && k <= |r|
    ensures SingleSpaced(r[k..])
  {
    var rest := r[k..];
    forall i | 0 <= i < |rest| && IsSpace(rest[i]) ensures rest[i] == ' ' {
      assert rest[i] == r[k + i];
    }
    forall i | 0 <= i < |rest| - 1 ensures !(IsSpace(rest[i]) && IsSpace(rest[i + 1])) {
      assert rest[i] == r[k + i];
      assert rest[i + 1] == r[k + i + 1];
    }
  }

  /** In a collapsed text a word that does not end the text is followed
      by one space and a collapsed remainder. */
  lemma NormalizedTail(r: string, w: string, t: string)
    requires Normalized(r) && r == w + t && t != [] && IsSpace(t[0])
    ensures |t| >= 2 && t[0] == ' ' && t == [' '] + t[1..]
    ensures Normalized(t[1..])
  {
    var n := |w|;
    assert r[n] == t[0];
    assert n < |r| - 1;
    assert t[1..] == r[n + 1..];
    SingleSpacedSuffix(r, n + 1);
    assert r[n + 1..][0] == r[n + 1];
    assert r[n + 1..][|r| - n - 2] == r[|r| - 1];
  }

  lemma JoinCons(w: string, ws: seq<string>)
    requires ws != []
    ensures JoinWords([w] + ws) == w + " " + JoinWords(ws)
  {
    assert ([w] + ws)[1..] == ws;
  }

  /** A collapsed text has at least one word unless it is empty. */
  lemma SplitNonEmpty(r: string)
    requires r != [] && !IsSpace(r[0])
    ensures Split(r) != []
  {
  }

  /** The words of a space followed by `rest` are those of `rest`. */
  lemma SplitAfterSpace(t: string)
    requires t != [] && t[0] == ' '
    ensures Split(t) == Split(t[1..])
  {
    assert t == [t[0]] + t[1..];
    SplitSpaceCons(t[0], t[1..]);
  }

  /** A collapsed text is one word, or a word, a space and a shorter
      collapsed text. */
  lemma NormalizedFirstWord(r: string) returns (last: bool, w: string, rest: string)
    requires Normalized(r) && r != []
    ensures last ==> Split(r) == [r]
    ensures !last ==> r == w + " " + rest && |rest| < |r| && Normalized(rest)
    ensures !last ==> Split(r) == [w] + Split(rest) && Split(rest) != []
  {
    var t;
    w, t := Decompose(r);
    SplitFieldCons(w, t);
    last := t == [];
    if last {
      assert r == w;
      rest := [];
    } else {
      NormalizedTail(r, w, t);
      rest := t[1..];
      SplitAfterSpace(t);
      SplitNonEmpty(rest);
      assert r == w + " " + rest by {
        assert w + t == w + ([' '] + rest);
      }
    }
  }

  /** A collapsed text is its own words joined by single spaces. */
  lemma {:induction false} NormalizedIsJoined(r: string)
    requires Normalized(r)
    ensures r == JoinWords(Split(r))
    decreases |r|
  {
    if r != [] {
      var last, w, rest := NormalizedFirstWord(r);
      if !last {
        NormalizedIsJoined(rest);
        JoinCons(w, Split(rest));
      }
    }
  }

  lemma StripKeepsSingleSpaced(s: string)
    requires SingleSpaced(s)
    ensures SingleSpaced(Strip(s))
  {
    StripIsSlice(s);
    var k := |s| - |TrimStart(s)|;
    SingleSpacedSuffix(s, k);
    SingleSpacedPrefix(s[k..], |Strip(s)|);
    assert Strip(s) == s[k..][..|Strip(s)|];
  }

  /** A prefix of a single-spaced text is single-spaced. */
  lemma SingleSpacedPrefix(r: string, k: nat)
    requires SingleSpaced(r) && k <= |r|
    ensures SingleSpaced(r[..k])
  {
    var p := r[..k];
    assert forall i :: 0 <= i < |p| ==> p[i] == r[i];
  }

  lemma TrimStartKeepsNonSpace(s: string)
    ensures NonSpace(TrimStart(s)) == NonSpace(s)
  {
    var t := TrimStart(s);
    var head := s[..|s| - |t|];
    assert s == head + t;
    NonSpaceAppend(head, t);
    NonSpaceOfBlank(head);
  }

  lemma TrimEndKeepsNonSpace(t: string)
    ensures NonSpace(TrimEnd(t)) == NonSpace(t)
  {
    var r := TrimEnd(t);
    var tail := t[|r|..];
    assert t == r + tail;
    assert IsBlank(tail) by {
      forall i | 0 <= i < |tail| ensures IsSpace(tail[i]) {
        assert tail[i] == t[|r| + i];
      }
    }
    NonSpaceAppend(r, tail);
    NonSpaceOfBlank(tail);
  }

  lemma StripKeepsNonSpace(s: string)
    ensures NonSpace(Strip(s)) == NonSpace(s)
  {
    TrimStartKeepsNonSpace(s);
    TrimEndKeepsNonSpace(TrimStart(s));
  }

  /** `re.sub(r'\s+', ' ', s).strip()` (preprocessing.py:25). */
  function CollapseWhitespace(s: string): (r: string)
    ensures Normalized(r)
    ensures NonSpace(r) == NonSpace(s)
    ensures r == JoinWords(Split(s))
  {
    SquashIsSingleSpaced(s);
    StripKeepsSingleSpaced(SquashRuns(s));
    SquashKeepsNonSpace(s);
    StripKeepsNonSpace(SquashRuns(s));
    var r := Strip(SquashRuns(s));
    NormalizedIsJoined(r);
    SplitStrip(SquashRuns(s));
    SplitSquash(s);
    r
  }

  /** A normalized string is a fixed point of the collapse... */
  lemma CollapseFixesNormalized(s: string)
    requires Normalized(s)
    ensures CollapseWhitespace(s) == s
  {
    SquashFixesSingleSpaced(s);
    assert TrimStart(s) == s;
    assert TrimEnd(s) == s;
  }

  /** ...so collapsing twice is collapsing once. */
  lemma CollapseIdempotent(s: string)
    ensures CollapseWhitespace(CollapseWhitespace(s)) == CollapseWhitespace(s)
  {
    CollapseFixesNormalized(CollapseWhitespace(s));
  }

  /** Whitespace-only text collapses to nothing. */
  lemma CollapseBlank(s: string)
    requires IsBlank(s)
    ensures CollapseWhitespace(s) == ""
  {
    NonSpaceOfBlank(s);
    NonSpaceEmptyIsBlank(CollapseWhitespace(s));
  }

  lemma {:induction false} NonSpaceEmptyIsBlank(s: string)
    requires NonSpace(s) == []
    ensures IsBlank(s)
  {
    if s != [] {
      NonSpaceEmptyIsBlank(s[1..]);
    }
  }

  /** `fillna(value)` on one cell. */
  function FillNa(v: Cell, value: string): (w: Cell)
    ensures !w.Null?
    ensures v.Null? ==> w == Str(value)
    ensures !v.Null? ==> w == v
  {
    if v.Null? then Str(value) else v
  }

  /** `clean_text(v)`: non-strings and the sentinels (compared after
      lower-casing, without trimming) become "", anything else is
      markup-stripped by `getText` and whitespace-collapsed. */
  function CleanText(v: Cell, getText: string -> string): (r: string)
    ensures Normalized(r)
    ensures !v.Str? ==> r == ""
    ensures v.Str? && Lower(v.s) in Sentinels ==> r == ""
    ensures v.Str? && Lower(v.s) !in Sentinels ==> NonSpace(r) == NonSpace(getText(v.s))
    ensures v.Str? && Lower(v.s) !in Sentinels ==> r == JoinWords(Split(getText(v.s)))
  {
    match v
    case Str(s) => if Lower(s) in Sentinels then "" else CollapseWhitespace(getText(s))
    case _ => ""
  }

  /** A missing title or body (filled with "") cleans to "", given only that
      the markup stripper returns whitespace at most for the empty document. */
  lemma MissingTextIsEmpty(getText: string -> string)
    requires IsBlank(getText(""))
    ensures CleanText(FillNa(Null, ""), getText) == ""
  {
    CollapseBlank(getText(""));
  }

  /** The sentinel test ignores case: any casing of "[deleted]" or "[removed]" is dropped. */
  lemma SentinelAnyCase(s: string, getText: string -> string)
    requires Lower(s) in Sentinels
    ensures CleanText(Str(Upper(s)), getText) == ""
  {
    LowerOfUpper(s);
  }

  /** Both sentinels are nine characters long. */
  lemma SentinelLength(w: string)
    requires w in Sentinels
    ensures |w| == 9
  {
  }

  /** The sentinel test does not trim: a sentinel with whitespace before it
      (" [deleted]") is not dropped but cleaned like any other text. */
  lemma PaddedSentinelIsKept(pad: string, sentinel: string, getText: string -> string)
    requires sentinel in Sentinels && pad != [] && IsBlank(pad)
    ensures CleanText(Str(pad + sentinel), getText) == CollapseWhitespace(getText(pad + sentinel))
  {
    SentinelLength(sentinel);
    if Lower(pad + sentinel) in Sentinels {
      SentinelLength(Lower(pad + sentinel));
    }
  }
}

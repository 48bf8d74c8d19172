/** The derived fields of a normalized record (preprocessing.py:29-32, 59-60):
    hashtags (`re.findall(r'#(\w+)', text)`), keywords
    (`re.findall(r'\b\w{4,}\b', text.lower())`) and the URL's network
    location (`urlparse(url).netloc`). */
module Extraction {
  import opened Text
  import opened Wrappers
  import opened Frames

  predicate AllWord(w: string) {
    forall i :: 0 <= i < |w| ==> IsWordChar(w[i])
  }

  /** Length of the word-character run at the start of `s` (what a greedy `\w+` takes). */
  function WordRunLen(s: string): (n: nat)
    ensures n <= |s|
    ensures forall i :: 0 <= i < n ==> IsWordChar(s[i])
    ensures n < |s| ==> !IsWordChar(s[n])
  {
    if s != [] && IsWordChar(s[0]) then 1 + WordRunLen(s[1..]) else 0
  }

  /** A word run followed by a non-word character (or nothing) is taken whole. */
  lemma WordRunOfWord(a: string, b: string)
    requires AllWord(a)
    requires b == [] || !IsWordChar(b[0])
    ensures WordRunLen(a + b) == |a|
  {
    assert forall j :: 0 <= j < |a| ==> (a + b)[j] == a[j];
    assert b != [] ==> (a + b)[|a|] == b[0];
  }

  // ----- hashtags -------------------------------------------------------

  /** `re.findall(r'#(\w+)', s)`: scanning left to right, a `#` followed by a
      word character yields the maximal word run after it, and the scan
      resumes after that run. */
  function Hashtags(s: string): (tags: seq<string>)
    ensures forall k :: 0 <= k < |tags| ==> tags[k] != [] && AllWord(tags[k])
    ensures forall k :: 0 <= k < |tags| ==> '#' !in tags[k]
    decreases |s|
  {
    if |s| < 2 then []
    else if s[0] == '#' && IsWordChar(s[1]) then
      var n := WordRunLen(s[1..]);
      [s[1..1 + n]] + Hashtags(s[1 + n..])
    else Hashtags(s[1..])
  }

  /** Reference reading of the pattern: every `#` immediately followed by a
      word character contributes the maximal word run after it, in order. */
  function HashTagsAtEveryHash(s: string): seq<string>
    decreases |s|
  {
    if |s| < 2 then []
    else
      (if s[0] == '#' && IsWordChar(s[1]) then [s[1..1 + WordRunLen(s[1..])]] else [])
      + HashTagsAtEveryHash(s[1..])
  }

  lemma {:induction false} SkipWithoutHash(s: string, m: nat)
    requires m <= |s|
    requires forall i :: 0 <= i < m ==> s[i] != '#'
    ensures HashTagsAtEveryHash(s) == HashTagsAtEveryHash(s[m..])
  {
    if m > 0 {
      SkipWithoutHash(s[1..], m - 1);
      assert s[1..][m - 1..] == s[m..];
    } else {
      assert s[m..] == s;
    }
  }

  /** The scan that resumes after each match finds a tag at every `#` that
      has a word character after it: no tag is skipped or merged. */
  lemma {:induction false} HashtagsAtEveryHash(s: string)
    ensures Hashtags(s) == HashTagsAtEveryHash(s)
    decreases |s|
  {
    if |s| >= 2 {
      if s[0] == '#' && IsWordChar(s[1]) {
        var n := WordRunLen(s[1..]);
        SkipWithoutHash(s[1..], n);
        assert s[1..][n..] == s[1 + n..];
        HashtagsAtEveryHash(s[1 + n..]);
      } else {
        HashtagsAtEveryHash(s[1..]);
      }
    }
  }

  /** Every tag found is spelled out in the text right after a `#`. */
  lemma {:induction false} HashtagsOccur(s: string)
    ensures forall t :: t in Hashtags(s) ==> Contains(s, "#" + t)
    decreases |s|
  {
    if |s| >= 2 {
      if s[0] == '#' && IsWordChar(s[1]) {
        var n := WordRunLen(s[1..]);
        var rest := s[1 + n..];
        HashtagsOccur(rest);
        assert s == s[..1 + n] + rest + [];
        assert "#" + s[1..1 + n] == s[0..1 + n];
        assert OccursAt(s, "#" + s[1..1 + n], 0);
        forall t | t in Hashtags(rest) ensures Contains(s, "#" + t) {
          ContainsExtended(rest, "#" + t, s[..1 + n], []);
        }
      } else {
        HashtagsOccur(s[1..]);
        assert s == s[..1] + s[1..] + [];
        forall t | t in Hashtags(s[1..]) ensures Contains(s, "#" + t) {
          ContainsExtended(s[1..], "#" + t, s[..1], []);
        }
      }
    }
  }

  // ----- keywords -------------------------------------------------------

  /** The shortest keyword: `\w{4,}`. */
  const MinKeywordLength: nat := 4

  /** `re.findall(r'\b\w{4,}\b', s)`: the maximal word runs of length at
      least four, left to right, duplicates kept. The scan position is
      always at a word boundary, so a run is either taken whole or skipped. */
  function Keywords(s: string): (words: seq<string>)
    ensures forall k :: 0 <= k < |words| ==> |words[k]| >= MinKeywordLength && AllWord(words[k])
    ensures IsLowerCase(s) ==> forall k :: 0 <= k < |words| ==> IsLowerCase(words[k])
    decreases |s|
  {
    if s == [] then []
    else if IsWordChar(s[0]) then
      var n := WordRunLen(s);
      (if n >= MinKeywordLength then [s[..n]] else []) + Keywords(s[n..])
    else Keywords(s[1..])
  }

  /** Reference reading of the pattern: each position that starts a word
      run (the text's start, or a position after a non-word character)
      contributes its maximal run when that run has at least four
      characters. `afterWord` says whether a word character precedes `s`. */
  function KeywordsAtWordStarts(s: string, afterWord: bool): seq<string>
    decreases |s|
  {
    if s == [] then []
    else
      (if IsWordChar(s[0]) && !afterWord && WordRunLen(s) >= MinKeywordLength
       then [s[..WordRunLen(s)]] else [])
      + KeywordsAtWordStarts(s[1..], IsWordChar(s[0]))
  }

  /** Inside a word run no position starts a run. */
  lemma {:induction false} SkipWordRun(s: string, m: nat)
    requires m <= |s|
    requires forall i :: 0 <= i < m ==> IsWordChar(s[i])
    ensures KeywordsAtWordStarts(s, true) == KeywordsAtWordStarts(s[m..], true)
  {
    if m > 0 {
      SkipWordRun(s[1..], m - 1);
      assert s[1..][m - 1..] == s[m..];
    } else {
      assert s[m..] == s;
    }
  }

  /** Before a non-word character what precedes does not matter. */
  lemma AfterWordIrrelevant(s: string)
    requires s == [] || !IsWordChar(s[0])
    ensures KeywordsAtWordStarts(s, true) == KeywordsAtWordStarts(s, false)
  {
  }

  /** The scan that resumes after each run finds a keyword at every word
      start whose run is long enough: none is skipped, split or merged. */
  lemma {:induction false} KeywordsAtEveryWordStart(s: string)
    ensures Keywords(s) == KeywordsAtWordStarts(s, false)
    decreases |s|
  {
    if s != [] {
      if IsWordChar(s[0]) {
        var n := WordRunLen(s);
        SkipWordRun(s[1..], n - 1);
        assert s[1..][n - 1..] == s[n..];
        AfterWordIrrelevant(s[n..]);
        KeywordsAtEveryWordStart(s[n..]);
      } else {
        KeywordsAtEveryWordStart(s[1..]);
      }
    }
  }

  /** Round trip: joining keyword-shaped words with spaces and scanning
      gives the same words back. */
  lemma {:induction false} KeywordsOfJoinedWords(words: seq<string>)
    requires forall k :: 0 <= k < |words| ==> |words[k]| >= MinKeywordLength && AllWord(words[k])
    ensures Keywords(JoinWords(words)) == words
  {
    if words != [] {
      var w := words[0];
      if |words| == 1 {
        WordRunOfWord(w, "");
        assert w + "" == w;
        assert w[|w|..] == [];
      } else {
        var rest := JoinWords(words[1..]);
        var s := w + " " + rest;
        WordRunOfWord(w, " " + rest);
        assert s == w + (" " + rest);
        assert s[..|w|] == w;
        assert s[|w|..] == " " + rest;
        assert (" " + rest)[1..] == rest;
        KeywordsOfJoinedWords(words[1..]);
      }
    }
  }

  /** Words shorter than four characters never become keywords. */
  lemma ShortWordsAreSkipped(w: string)
    requires AllWord(w) && |w| < MinKeywordLength
    ensures Keywords(w) == []
  {
    WordRunOfWord(w, "");
    assert w + "" == w;
    if w != [] {
      assert w[|w|..] == [];
    }
  }

  /** `w` occurs in `s` at `i` as a whole word: the `\b` on either side
      holds, so no word character touches it. */
  predicate WordAt(s: string, w: string, i: int) {
    && OccursAt(s, w, i)
    && (i == 0 || !IsWordChar(s[i - 1]))
    && (i + |w| == |s| || !IsWordChar(s[i + |w|]))
  }

  /** A whole word of a suffix `s[k..]` is a whole word of `s`, unless it
      starts the suffix right after a word character. */
  lemma WordAtShift(s: string, k: nat, w: string, i: int)
    requires k <= |s| && WordAt(s[k..], w, i)
    requires i > 0 || k == 0 || !IsWordChar(s[k - 1])
    ensures WordAt(s, w, k + i)
  {
    var t := s[k..];
    assert s[k + i..k + i + |w|] == t[i..i + |w|];
    assert i > 0 ==> s[k + i - 1] == t[i - 1];
    assert i + |w| < |t| ==> s[k + i + |w|] == t[i + |w|];
  }

  /** Every keyword is a whole word of the scanned text. */
  lemma {:induction false} KeywordsAreWholeWords(s: string)
    ensures forall w :: w in Keywords(s) ==> exists i :: WordAt(s, w, i)
    decreases |s|
  {
    if s != [] {
      if IsWordChar(s[0]) {
        var n := WordRunLen(s);
        var rest := s[n..];
        KeywordsAreWholeWords(rest);
        forall w | w in Keywords(rest) ensures exists i :: WordAt(s, w, i) {
          var i :| WordAt(rest, w, i);
          assert IsWordChar(rest[i]) by {
            assert w[0] == rest[i];
          }
          assert !IsWordChar(rest[0]);
          WordAtShift(s, n, w, i);
        }
        if n >= MinKeywordLength {
          assert WordAt(s, s[..n], 0);
        }
      } else {
        KeywordsAreWholeWords(s[1..]);
        forall w | w in Keywords(s[1..]) ensures exists i :: WordAt(s, w, i) {
          var i :| WordAt(s[1..], w, i);
          WordAtShift(s, 1, w, i);
        }
      }
    }
  }

  // ----- URL network location -----------------------------------------

  predicate IsAsciiLetter(c: char) { ('a' <= c <= 'z') || ('A' <= c <= 'Z') }

  /** Characters allowed in a URL scheme: letters, digits, `+`, `-`, `.`. */
  predicate IsSchemeChar(c: char) {
    IsAsciiLetter(c) || ('0' <= c <= '9') || c == '+' || c == '-' || c == '.'
  }

  /** The characters that end the authority component. */
  predicate IsAuthorityEnd(c: char) { c == '/' || c == '?' || c == '#' }

  /** First index of `c` in `s`, or `|s|` when there is none. */
  function IndexOf(s: string, c: char): (i: nat)
    ensures i <= |s|
    ensures i < |s| ==> s[i] == c
    ensures forall j :: 0 <= j < i ==> s[j] != c
  {
    if s == [] || s[0] == c then 0 else 1 + IndexOf(s[1..], c)
  }

  /** First index of an authority-ending character in `s`, or `|s|`. */
  function AuthorityLength(s: string): (i: nat)
    ensures i <= |s|
    ensures i < |s| ==> IsAuthorityEnd(s[i])
    ensures forall j :: 0 <= j < i ==> !IsAuthorityEnd(s[j])
  {
    if s == [] || IsAuthorityEnd(s[0]) then 0 else 1 + AuthorityLength(s[1..])
  }

  /** The prefix before the first `:` is a scheme. */
  predicate HasScheme(url: string) {
    var i := IndexOf(url, ':');
    0 < i < |url| && IsAsciiLetter(url[0]) && forall k :: 0 <= k < i ==> IsSchemeChar(url[k])
  }

  /** What follows the scheme and its colon, or the whole URL when there is no scheme. */
  function AfterScheme(url: string): string {
    if HasScheme(url) then url[IndexOf(url, ':') + 1..] else url
  }

  /** `urlparse(url).netloc`: after an optional scheme, a `//` opens the
      authority, which runs to the first `/`, `?` or `#`. */
  function Netloc(url: string): (host: string)
    ensures forall k :: 0 <= k < |host| ==> !IsAuthorityEnd(host[k])
  {
    var rest := AfterScheme(url);
    if |rest| >= 2 && rest[..2] == "//" then
      var a := rest[2..];
      a[..AuthorityLength(a)]
    else ""
  }

  /** `extract_domain(url)` (preprocessing.py:29-32). */
  function ExtractDomain(url: Cell): (d: Option<string>)
    ensures d.Some? <==> url.Str?
    ensures d.Some? ==> d.value == Netloc(url.s)
  {
    match url
    case Str(s) => Some(Netloc(s))
    case _ => None
  }

  predicate IsScheme(scheme: string) {
    scheme != [] && IsAsciiLetter(scheme[0])
    && forall k :: 0 <= k < |scheme| ==> IsSchemeChar(scheme[k])
  }

  predicate IsHost(host: string) {
    forall k :: 0 <= k < |host| ==> !IsAuthorityEnd(host[k])
  }

  lemma AuthorityOf(host: string, tail: string)
    requires IsHost(host)
    requires tail == [] || IsAuthorityEnd(tail[0])
    ensures AuthorityLength(host + tail) == |host|
  {
    assert forall j :: 0 <= j < |host| ==> (host + tail)[j] == host[j];
    assert tail != [] ==> (host + tail)[|host|] == tail[0];
  }

  /** A scheme followed by `:` is recognised and skipped. */
  lemma AfterSchemeOf(scheme: string, rest: string)
    requires IsScheme(scheme)
    ensures AfterScheme(scheme + ":" + rest) == rest
  {
    var url := scheme + ":" + rest;
    assert url[|scheme|] == ':';
    assert forall j :: 0 <= j < |scheme| ==> url[j] == scheme[j];
    assert IndexOf(url, ':') == |scheme|;
    assert url[|scheme| + 1..] == rest;
  }

  /** Once the scheme is skipped, `//host` followed by an authority end or
      nothing yields `host`. */
  lemma NetlocOfAuthority(url: string, host: string, tail: string)
    requires IsHost(host)
    requires tail == [] || IsAuthorityEnd(tail[0])
    requires AfterScheme(url) == "//" + host + tail
    ensures Netloc(url) == host
  {
    var rest := AfterScheme(url);
    assert rest[..2] == "//";
    assert rest[2..] == host + tail;
    AuthorityOf(host, tail);
    assert (host + tail)[..|host|] == host;
  }

  /** Round trip: the host written into `scheme://host/...` is what comes out. */
  lemma NetlocOfUrl(scheme: string, host: string, tail: string)
    requires IsScheme(scheme) && IsHost(host)
    requires tail == [] || IsAuthorityEnd(tail[0])
    ensures Netloc(scheme + "://" + host + tail) == host
  {
    assert scheme + "://" + host + tail == scheme + ":" + ("//" + host + tail);
    AfterSchemeOf(scheme, "//" + host + tail);
    NetlocOfAuthority(scheme + "://" + host + tail, host, tail);
  }

  /** Round trip without a scheme: `//host/...` also yields its host. */
  lemma NetlocOfSchemeRelative(host: string, tail: string)
    requires IsHost(host)
    requires tail == [] || IsAuthorityEnd(tail[0])
    ensures Netloc("//" + host + tail) == host
  {
    var url := "//" + host + tail;
    assert url[0] == '/';
    assert !HasScheme(url);
    NetlocOfAuthority(url, host, tail);
  }
}

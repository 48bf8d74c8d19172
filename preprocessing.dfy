/** `preprocess_data` (preprocessing.py:35-66): restrict the raw table to the
    whitelisted columns, convert the timestamp, clean the two text columns,
    lower-case the subreddit, coerce the two counters to integers, and add the
    derived `hashtags`, `keywords` and `domain` columns. */
module Preprocessing {
  import opened Text
  import opened Wrappers
  import opened Frames
  import opened Cleaning
  import opened Extraction

  /** The recognised columns, in the order the normalized table keeps them. */
  const Whitelist: seq<string> :=
    ["subreddit", "title", "selftext", "upvote_ratio", "score", "created_utc", "url", "author"]

  const TextColumns: seq<string> := ["title", "selftext"]

  const NumericColumns: seq<string> := ["upvote_ratio", "score"]

  /** The library calls the normalizer makes and the model does not interpret:
      `BeautifulSoup(s, "html.parser").get_text()`, `pd.to_datetime(v,
      unit='s', errors='coerce')` on one value, and the string-parsing part of
      `pd.to_numeric(v, errors='coerce')` (`None` when the string is not a number). */
  datatype Externals = Externals(
    getText: string -> string,
    toDatetime: Cell -> Cell,
    parseNumber: string -> Option<real>)

  /** The exception `preprocess_data` can raise: a `KeyError` for a column
      that the row-wise hashtag extraction reads but the table lacks. */
  datatype Error = KeyError(column: string)

  // ----- numeric coercion ----------------------------------------------

  /** `int(x)` on a float: truncation toward zero. */
  function Trunc(x: real): (n: int)
    ensures 0.0 <= x ==> 0 <= n && n as real <= x < n as real + 1.0
    ensures x < 0.0 ==> n <= 0 && n as real - 1.0 < x <= n as real
  {
    if x >= 0.0 then x.Floor else -((-x).Floor)
  }

  /** `pd.to_numeric(v, errors='coerce')` followed by `fillna(0).astype(int)`
      on one cell: numbers are truncated, numeric strings parsed and
      truncated, and everything else becomes 0. */
  function ToInt(v: Cell, parseNumber: string -> Option<real>): (n: int)
    ensures !(v.Int? || v.Num? || v.Str?) ==> n == 0
    ensures v.Str? && parseNumber(v.s).None? ==> n == 0
    ensures v.Int? ==> n == v.i
    ensures v.Num? ==> n == Trunc(v.x)
    ensures v.Str? && parseNumber(v.s).Some? ==> n == Trunc(parseNumber(v.s).value)
  {
    match v
    case Int(i) => i
    case Num(x) => Trunc(x)
    case Str(s) => (match parseNumber(s) case Some(x) => Trunc(x) case None => 0)
    case _ => 0
  }

  /** Truncation is symmetric about zero. */
  lemma TruncOdd(x: real)
    ensures Trunc(-x) == -Trunc(x)
  {
  }

  /** An upvote ratio lies in [0, 1], so the integer cast keeps only
      whether it was exactly 1: a ratio of 0.97 becomes 0. */
  lemma RatioCollapses(x: real, parseNumber: string -> Option<real>)
    requires 0.0 <= x <= 1.0
    ensures ToInt(Num(x), parseNumber) == (if x == 1.0 then 1 else 0)
  {
  }

  // ----- per-cell conversions ------------------------------------------

  /** `fillna("").apply(clean_text)` on one text cell (preprocessing.py:46-47). */
  function CleanCell(v: Cell, getText: string -> string): (w: Cell)
    ensures w.Str? && Normalized(w.s)
  {
    Str(CleanText(FillNa(v, ""), getText))
  }

  /** `Series.str.lower()` on one cell: non-strings become missing. */
  function LowerCell(v: Cell): (w: Cell)
    ensures w.Str? <==> v.Str?
    ensures w.Str? ==> IsLowerCase(w.s) && |w.s| == |v.s|
    ensures v.Str? ==> w == Str(Lower(v.s))
    ensures !v.Str? ==> w == Null
  {
    if v.Str? then Str(Lower(v.s)) else Null
  }

  /** The integer coercion of one counter cell (preprocessing.py:54-56). */
  function CountCell(v: Cell, parseNumber: string -> Option<real>): (w: Cell)
    ensures w.Int?
  {
    Int(ToInt(v, parseNumber))
  }

  /** The value a whitelisted column `c` holds after its in-place conversion;
      columns without a conversion keep their value. */
  function Converted(c: string, v: Cell, ext: Externals): Cell {
    if c == "created_utc" then ext.toDatetime(v)
    else if c in TextColumns then CleanCell(v, ext.getText)
    else if c == "subreddit" then LowerCell(v)
    else if c in NumericColumns then CountCell(v, ext.parseNumber)
    else v
  }

  /** The columns that have a conversion step, in the order the steps run. */
  const Steps: seq<string> :=
    ["created_utc", "title", "selftext", "subreddit", "upvote_ratio", "score"]

  /** `row['title'] + ' ' + row['selftext']` (preprocessing.py:59-60). */
  function CombinedText(r: Row): (c: string)
    requires "title" in r && "selftext" in r
    ensures var t := TextOf(r["title"]);
      && |c| == |t| + 1 + |TextOf(r["selftext"])|
      && c[..|t|] == t && c[|t|] == ' ' && c[|t| + 1..] == TextOf(r["selftext"])
  {
    TextOf(r["title"]) + " " + TextOf(r["selftext"])
  }

  /** The `hashtags` value of a record (preprocessing.py:59). */
  function HashtagCell(r: Row): (w: Cell)
    ensures "title" in r && "selftext" in r ==>
      w.StrList? && forall k :: 0 <= k < |w.items| ==> w.items[k] != [] && '#' !in w.items[k]
  {
    if "title" in r && "selftext" in r then StrList(Hashtags(CombinedText(r))) else Null
  }

  /** The `keywords` value of a record (preprocessing.py:60): the long
      words that start at each word start of the lower-cased combined text. */
  function KeywordCell(r: Row): (w: Cell)
    ensures "title" in r && "selftext" in r ==>
      w.StrList? && forall k :: 0 <= k < |w.items| ==>
        |w.items[k]| >= MinKeywordLength && IsLowerCase(w.items[k])
    ensures "title" in r && "selftext" in r ==>
      w == StrList(KeywordsAtWordStarts(Lower(CombinedText(r)), false))
    ensures !("title" in r && "selftext" in r) ==> w == Null
  {
    if "title" in r && "selftext" in r then
      var s := Lower(CombinedText(r));
      assert IsLowerCase(s);
      KeywordsAtEveryWordStart(s);
      StrList(Keywords(s))
    else Null
  }

  /** The `domain` value of a record (preprocessing.py:62-63): the network
      location of a string URL, missing otherwise. */
  function DomainCell(r: Row): (w: Cell)
    ensures "url" in r && r["url"].Str? ==> w == Str(Netloc(r["url"].s))
    ensures !("url" in r && r["url"].Str?) ==> w == Null
  {
    if "url" in r then
      match ExtractDomain(r["url"])
      case Some(host) => Str(host)
      case None => Null
    else Null
  }

  // ----- the normalized table --------------------------------------------

  /** `[col for col in names if col in present]`. */
  function KeepPresent(names: seq<string>, present: seq<string>): (kept: seq<string>)
    ensures forall c :: c in kept <==> c in names && c in present
  {
    if names == [] then []
    else (if names[0] in present then [names[0]] else []) + KeepPresent(names[1..], present)
  }

  /** Keeping the present names keeps their order and adds no repeats. */
  lemma {:induction false} KeepPresentOrdered(names: seq<string>, present: seq<string>)
    requires Distinct(names)
    ensures IsSubsequence(KeepPresent(names, present), names)
    ensures Distinct(KeepPresent(names, present))
  {
    if names != [] {
      var rest := names[1..];
      assert Distinct(rest) by {
        forall i, j | 0 <= i < j < |rest| ensures rest[i] != rest[j] {
          assert rest[i] == names[i + 1] && rest[j] == names[j + 1];
        }
      }
      KeepPresentOrdered(rest, present);
      var k := KeepPresent(rest, present);
      assert names[0] !in rest by {
        forall m | 0 <= m < |rest| ensures rest[m] != names[0] {
          assert rest[m] == names[m + 1];
        }
      }
      if names[0] in present {
        assert KeepPresent(names, present) == [names[0]] + k;
        assert ([names[0]] + k)[1..] == k;
      } else {
        assert KeepPresent(names, present) == k;
        assert k == [] || k[0] in rest;
      }
    }
  }

  /** `[col for col in expected_columns if col in df.columns]`. */
  function SelectedColumns(columns: seq<string>): (kept: seq<string>)
    ensures forall c :: c in kept <==> c in Whitelist && c in columns
  {
    KeepPresent(Whitelist, columns)
  }

  /** The kept columns come in whitelist order, each once. */
  lemma SelectedColumnsOrdered(columns: seq<string>)
    ensures IsSubsequence(SelectedColumns(columns), Whitelist)
    ensures Distinct(SelectedColumns(columns))
  {
    assert Distinct(Whitelist);
    KeepPresentOrdered(Whitelist, columns);
  }

  /** The columns of the normalized table: the kept whitelist columns, then
      the derived ones in the order they are assigned. */
  function OutputColumns(columns: seq<string>): (out: seq<string>)
    ensures forall c :: c in out <==>
      (c in Whitelist && c in columns) || c == "hashtags" || c == "keywords"
      || (c == "domain" && "url" in columns)
  {
    SelectedColumns(columns) + ["hashtags", "keywords"] + (if "url" in columns then ["domain"] else [])
  }

  /** No column of the normalized table appears twice. */
  lemma OutputColumnsDistinct(columns: seq<string>)
    ensures Distinct(OutputColumns(columns))
  {
    var kept := SelectedColumns(columns);
    var derived := ["hashtags", "keywords"] + (if "url" in columns then ["domain"] else []);
    SelectedColumnsOrdered(columns);
    forall c | c in kept ensures c !in derived {
      DerivedNotWhitelisted(c);
    }
    DistinctAppend(kept, derived);
    assert OutputColumns(columns) == kept + derived;
  }

  /** `df[[...]]` on one record: only the whitelisted columns are kept. */
  function Restrict(raw: Row): (r: Row)
    ensures forall c :: c in r <==> c in raw && c in Whitelist
  {
    map c | c in raw && c in Whitelist :: raw[c]
  }

  /** A restricted record with every conversion applied. */
  function ConvertedRecord(raw: Row, ext: Externals): (r: Row)
    ensures forall c :: c in r <==> c in raw && c in Whitelist
  {
    map c | c in raw && c in Whitelist :: Converted(c, raw[c], ext)
  }

  /** The normalized form of one raw record: converted, then the three
      derived columns assigned in order from the converted values. */
  function NormalizedRecord(raw: Row, ext: Externals): (r: Row)
    ensures forall c :: c in r <==>
      (c in raw && c in Whitelist) || c == "hashtags" || c == "keywords"
      || (c == "domain" && "url" in raw)
  {
    WithDerived(ConvertedRecord(raw, ext))
  }

  /** A converted record with `hashtags`, `keywords` and (when there is a
      `url`) `domain` assigned in that order. */
  function WithDerived(r0: Row): (r: Row)
    ensures forall c :: c in r <==>
      c in r0 || c == "hashtags" || c == "keywords" || (c == "domain" && "url" in r0)
  {
    var r1 := r0["hashtags" := HashtagCell(r0)];
    var r2 := r1["keywords" := KeywordCell(r1)];
    if "url" in r2 then r2["domain" := DomainCell(r2)] else r2
  }

  /** A normalized record has exactly the output columns. */
  lemma NormalizedRecordKeys(raw: Row, columns: seq<string>, ext: Externals)
    requires raw.Keys == ColumnSet(columns)
    ensures NormalizedRecord(raw, ext).Keys == ColumnSet(OutputColumns(columns))
  {
    var out := OutputColumns(columns);
    var r := NormalizedRecord(raw, ext);
    forall c ensures c in r <==> c in out {
      assert c in ColumnSet(columns) <==> c in columns;
    }
  }

  /** No derived column name is a whitelisted one. */
  lemma DerivedNotWhitelisted(c: string)
    requires c in Whitelist
    ensures c != "hashtags" && c != "keywords" && c != "domain"
  {
  }

  /** Assigning the derived columns leaves every other column alone. */
  lemma WithDerivedKeeps(r0: Row, c: string)
    requires c in r0 && c != "hashtags" && c != "keywords" && c != "domain"
    ensures WithDerived(r0)[c] == r0[c]
  {
  }

  /** The derived text columns are computed from the converted record. */
  lemma WithDerivedText(r0: Row)
    requires "title" in r0 && "selftext" in r0
    ensures WithDerived(r0)["hashtags"] == HashtagCell(r0)
    ensures WithDerived(r0)["keywords"] == KeywordCell(r0)
  {
    var r1 := r0["hashtags" := HashtagCell(r0)];
    assert CombinedText(r1) == CombinedText(r0);
  }

  /** A kept column of a normalized record holds its converted value. */
  lemma NormalizedLookup(raw: Row, ext: Externals, c: string)
    requires c in raw && c in Whitelist
    ensures NormalizedRecord(raw, ext)[c] == Converted(c, raw[c], ext)
  {
    DerivedNotWhitelisted(c);
    WithDerivedKeeps(ConvertedRecord(raw, ext), c);
  }

  /** The text fields of a normalized record are the cleaned raw fields,
      and its hashtags are extracted from exactly those cleaned fields. */
  lemma NormalizedRecordText(raw: Row, ext: Externals)
    requires "title" in raw && "selftext" in raw
    ensures var r := NormalizedRecord(raw, ext);
      && r["title"] == Str(CleanText(FillNa(raw["title"], ""), ext.getText))
      && r["selftext"] == Str(CleanText(FillNa(raw["selftext"], ""), ext.getText))
      && r["title"].Str? && Normalized(r["title"].s)
      && r["selftext"].Str? && Normalized(r["selftext"].s)
      && r["hashtags"] == StrList(Hashtags(
           CleanText(FillNa(raw["title"], ""), ext.getText) + " "
           + CleanText(FillNa(raw["selftext"], ""), ext.getText)))
  {
    NormalizedLookup(raw, ext, "title");
    NormalizedLookup(raw, ext, "selftext");
    WithDerivedText(ConvertedRecord(raw, ext));
  }

  /** The hashtags of a normalized record are non-empty tags without `#`. */
  lemma NormalizedRecordHashtags(raw: Row, ext: Externals)
    requires "title" in raw && "selftext" in raw
    ensures var r := NormalizedRecord(raw, ext);
      && r["hashtags"].StrList?
      && (forall t :: t in r["hashtags"].items ==> t != [] && '#' !in t)
  {
    WithDerivedText(ConvertedRecord(raw, ext));
  }

  /** The keywords of a normalized record are scanned from the lower-cased
      cleaned title and body joined by a space; each is lower-case and at
      least four characters long. */
  lemma NormalizedRecordKeywords(raw: Row, ext: Externals)
    requires "title" in raw && "selftext" in raw
    ensures var r := NormalizedRecord(raw, ext);
      && r["keywords"] == StrList(Keywords(Lower(
           CleanText(FillNa(raw["title"], ""), ext.getText) + " "
           + CleanText(FillNa(raw["selftext"], ""), ext.getText))))
      && (forall w :: w in r["keywords"].items ==> |w| >= MinKeywordLength && IsLowerCase(w))
  {
    NormalizedLookup(raw, ext, "title");
    NormalizedLookup(raw, ext, "selftext");
    WithDerivedText(ConvertedRecord(raw, ext));
  }

  /** The subreddit of a normalized record is lower-cased, or missing
      when it was not a string. */
  lemma NormalizedSubreddit(raw: Row, ext: Externals)
    requires "subreddit" in raw
    ensures var v := NormalizedRecord(raw, ext)["subreddit"];
      && (v.Str? <==> raw["subreddit"].Str?)
      && (v.Str? ==> v.s == Lower(raw["subreddit"].s))
      && (!v.Str? ==> v == Null)
  {
    NormalizedLookup(raw, ext, "subreddit");
  }

  /** The counters of a normalized record are integers. */
  lemma NormalizedCounters(raw: Row, ext: Externals, c: string)
    requires c in NumericColumns && c in raw
    ensures NormalizedRecord(raw, ext)[c] == Int(ToInt(raw[c], ext.parseNumber))
  {
    NormalizedLookup(raw, ext, c);
  }

  /** The columns without a conversion are carried over unchanged. */
  lemma NormalizedKeepsUnconverted(raw: Row, ext: Externals, c: string)
    requires (c == "url" || c == "author") && c in raw
    ensures NormalizedRecord(raw, ext)[c] == raw[c]
  {
    NormalizedLookup(raw, ext, c);
  }

  // ----- pandas column operations ------------------------------------------

  /** `df[[...]]` on the rows. */
  function RestrictRows(rows: seq<Row>): (out: seq<Row>)
    ensures |out| == |rows|
    ensures forall i :: 0 <= i < |rows| ==> out[i] == Restrict(rows[i])
  {
    seq(|rows|, i requires 0 <= i < |rows| => Restrict(rows[i]))
  }

  // ----- the conversion stages -------------------------------------------

  /** A restricted record part way through the conversions: the columns of
      the first `n` steps converted, the others still raw. */
  ghost function Staged(r: Row, n: nat, ext: Externals): (s: Row)
    requires n <= |Steps|
    ensures s.Keys == r.Keys
  {
    map c | c in r :: if c in Steps[..n] then Converted(c, r[c], ext) else r[c]
  }

  /** The steps before `n + 1` are those before `n` and step `n`, which
      is not among the earlier ones: no column is converted twice. */
  lemma StepsPrefix(n: nat)
    requires n < |Steps|
    ensures forall c :: c in Steps[..n + 1] <==> c in Steps[..n] || c == Steps[n]
    ensures Steps[n] !in Steps[..n]
  {
    assert Steps[..n + 1] == Steps[..n] + [Steps[n]];
  }

  /** Step `n` on one record advances its stage by one. */
  lemma StageRow(r: Row, n: nat, f: Cell -> Cell, ext: Externals)
    requires n < |Steps|
    requires forall v :: f(v) == Converted(Steps[n], v, ext)
    ensures var s := Staged(r, n, ext);
      Steps[n] in r ==> s[Steps[n] := f(s[Steps[n]])] == Staged(r, n + 1, ext)
    ensures Steps[n] !in r ==> Staged(r, n, ext) == Staged(r, n + 1, ext)
  {
    StepsPrefix(n);
    var s := Staged(r, n, ext);
    var t := Staged(r, n + 1, ext);
    if Steps[n] in r {
      var u := s[Steps[n] := f(s[Steps[n]])];
      assert forall c :: c in u ==> u[c] == t[c];
      assert u.Keys == t.Keys;
    } else {
      assert forall c :: c in s ==> s[c] == t[c];
      assert s.Keys == t.Keys;
    }
  }

  /** Step `n`, applied to every row that has its column (all of them or
      none), advances the stage by one. */
  lemma StageColumn(raw: seq<Row>, before: seq<Row>, after: seq<Row>,
                    n: nat, f: Cell -> Cell, ext: Externals)
    requires n < |Steps|
    requires |before| == |raw|
    requires forall i :: 0 <= i < |raw| ==> before[i] == Staged(raw[i], n, ext)
    requires forall v :: f(v) == Converted(Steps[n], v, ext)
    requires || ((forall i :: 0 <= i < |before| ==> Steps[n] in before[i]) && after == MapColumn(before, Steps[n], f))
             || ((forall i :: 0 <= i < |raw| ==> Steps[n] !in raw[i]) && after == before)
    ensures |after| == |raw|
    ensures forall i :: 0 <= i < |raw| ==> after[i] == Staged(raw[i], n + 1, ext)
  {
    forall i | 0 <= i < |raw| ensures after[i] == Staged(raw[i], n + 1, ext) {
      StageRow(raw[i], n, f, ext);
    }
  }

  /** The timestamp conversion is step 0. */
  lemma DatetimeStep(ext: Externals)
    ensures Steps[0] == "created_utc"
    ensures forall v :: ext.toDatetime(v) == Converted(Steps[0], v, ext)
  {
  }

  /** The text loop's `k`-th pass is step `1 + k`. */
  lemma CleanStep(k: nat, stage: nat, ext: Externals)
    requires k < |TextColumns| && stage == 1 + k
    ensures stage < |Steps| && TextColumns[k] == Steps[stage]
    ensures forall v :: CleanCell(v, ext.getText) == Converted(Steps[stage], v, ext)
  {
  }

  /** The subreddit conversion is step 3. */
  lemma LowerStep(ext: Externals)
    ensures Steps[3] == "subreddit"
    ensures forall v :: LowerCell(v) == Converted(Steps[3], v, ext)
  {
  }

  /** The numeric loop's `k`-th pass is step `4 + k`. */
  lemma CountStep(k: nat, stage: nat, ext: Externals)
    requires k < |NumericColumns| && stage == 4 + k
    ensures stage < |Steps| && NumericColumns[k] == Steps[stage]
    ensures forall v :: CountCell(v, ext.parseNumber) == Converted(Steps[stage], v, ext)
  {
  }

  /** A column of the restricted table is in every row or in none. */
  lemma ColumnPresence(raw: seq<Row>, columns: seq<string>, col: string)
    requires forall i :: 0 <= i < |raw| ==> raw[i].Keys == ColumnSet(columns)
    ensures col in columns ==> forall i :: 0 <= i < |raw| ==> col in raw[i]
    ensures col !in columns ==> forall i :: 0 <= i < |raw| ==> col !in raw[i]
  {
  }

  /** Before the first step every record is raw. */
  lemma StagesStart(raw: seq<Row>, ext: Externals)
    ensures forall i :: 0 <= i < |raw| ==> raw[i] == Staged(raw[i], 0, ext)
  {
    forall i | 0 <= i < |raw| ensures raw[i] == Staged(raw[i], 0, ext) {
      assert raw[i].Keys == Staged(raw[i], 0, ext).Keys;
    }
  }

  /** Once every step has run, the stage is the converted record. */
  lemma StagesComplete(raw: Row, ext: Externals)
    ensures Staged(Restrict(raw), |Steps|, ext) == ConvertedRecord(raw, ext)
  {
    var s := Staged(Restrict(raw), |Steps|, ext);
    var w := ConvertedRecord(raw, ext);
    assert Steps[..|Steps|] == Steps;
    assert s.Keys == w.Keys;
    forall c | c in s ensures s[c] == w[c] {
      if c !in Steps {
        assert Converted(c, raw[c], ext) == raw[c];
      }
    }
  }

  /** One in-place conversion, `if col in df.columns: df[col] = ...`: when
      the table has the step's column every row has it converted, otherwise
      the table is left as it is. Either way every row advances one stage. */
  method ApplyStep(raw: seq<Row>, columns: seq<string>, rows: seq<Row>,
                   n: nat, f: Cell -> Cell, ext: Externals) returns (out: seq<Row>)
    requires n < |Steps|
    requires forall i :: 0 <= i < |raw| ==> raw[i].Keys == ColumnSet(columns)
    requires |rows| == |raw|
    requires forall i :: 0 <= i < |raw| ==> rows[i] == Staged(raw[i], n, ext)
    requires forall v :: f(v) == Converted(Steps[n], v, ext)
    ensures |out| == |raw|
    ensures forall i :: 0 <= i < |raw| ==> out[i] == Staged(raw[i], n + 1, ext)
  {
    var col := Steps[n];
    ColumnPresence(raw, columns, col);
    if col in columns {
      out := MapColumn(rows, col, f);
      StageColumn(raw, rows, out, n, f, ext);
    } else {
      out := rows;
      StageColumn(raw, rows, rows, n, f, ext);
    }
  }

  /** The in-place conversions of preprocessing.py:40-56 on the restricted
      table: every row advances through all the steps. */
  method ConvertColumns(raw: seq<Row>, columns: seq<string>, ext: Externals) returns (rows: seq<Row>)
    requires forall i :: 0 <= i < |raw| ==> raw[i].Keys == ColumnSet(columns)
    ensures |rows| == |raw|
    ensures forall i :: 0 <= i < |raw| ==> rows[i] == Staged(raw[i], |Steps|, ext)
  {
    StagesStart(raw, ext);
    DatetimeStep(ext);
    rows := ApplyStep(raw, columns, raw, 0, ext.toDatetime, ext);

    for k := 0 to |TextColumns|
      invariant |rows| == |raw|
      invariant forall i :: 0 <= i < |raw| ==> rows[i] == Staged(raw[i], 1 + k, ext)
    {
      CleanStep(k, 1 + k, ext);
      rows := ApplyStep(raw, columns, rows, 1 + k, v => CleanCell(v, ext.getText), ext);
    }

    LowerStep(ext);
    rows := ApplyStep(raw, columns, rows, 3, LowerCell, ext);

    for k := 0 to |NumericColumns|
      invariant |rows| == |raw|
      invariant forall i :: 0 <= i < |raw| ==> rows[i] == Staged(raw[i], 4 + k, ext)
    {
      CountStep(k, 4 + k, ext);
      rows := ApplyStep(raw, columns, rows, 4 + k, v => CountCell(v, ext.parseNumber), ext);
    }
  }

  /** The derived columns of preprocessing.py:59-63, assigned in order;
      `domain` only when the table has a `url` column. */
  method AddDerivedColumns(converted: seq<Row>, kept: seq<string>) returns (rows: seq<Row>, columns: seq<string>)
    requires forall i :: 0 <= i < |converted| ==> converted[i].Keys == ColumnSet(kept)
    ensures columns == kept + ["hashtags", "keywords"] + (if "url" in kept then ["domain"] else [])
    ensures |rows| == |converted|
    ensures forall i :: 0 <= i < |rows| ==> rows[i] == WithDerived(converted[i])
  {
    rows := AddColumn(converted, "hashtags", HashtagCell);
    columns := kept + ["hashtags"];
    rows := AddColumn(rows, "keywords", KeywordCell);
    columns := columns + ["keywords"];
    if "url" in columns {
      rows := AddColumn(rows, "domain", DomainCell);
      columns := columns + ["domain"];
    }
    ColumnPresence(converted, kept, "url");
    assert "url" in columns <==> "url" in kept;
  }

  /** After the conversions, each row of the restricted table is the
      converted record of its raw row. */
  lemma ConvertedTable(df: Frame, columns: seq<string>, rows: seq<Row>, ext: Externals)
    requires WellFormed(df) && columns == SelectedColumns(df.columns)
    requires |rows| == |df.rows|
    requires forall i :: 0 <= i < |rows| ==> rows[i] == Staged(RestrictRows(df.rows)[i], |Steps|, ext)
    ensures forall i :: 0 <= i < |rows| ==>
      rows[i] == ConvertedRecord(df.rows[i], ext) && rows[i].Keys == ColumnSet(columns)
  {
    forall i | 0 <= i < |rows|
      ensures rows[i] == ConvertedRecord(df.rows[i], ext) && rows[i].Keys == ColumnSet(columns)
    {
      assert df.rows[i] in df.rows;
      StagesComplete(df.rows[i], ext);
    }
  }

  /** The derived columns complete the normalized table. */
  lemma NormalizedTable(df: Frame, converted: seq<Row>, rows: seq<Row>, columns: seq<string>, ext: Externals)
    requires WellFormed(df)
    requires |converted| == |rows| == |df.rows|
    requires forall i :: 0 <= i < |rows| ==> converted[i] == ConvertedRecord(df.rows[i], ext)
    requires forall i :: 0 <= i < |rows| ==> rows[i] == WithDerived(converted[i])
    requires columns == OutputColumns(df.columns)
    ensures WellFormed(Frame(columns, rows))
    ensures forall i :: 0 <= i < |rows| ==> rows[i] == NormalizedRecord(df.rows[i], ext)
  {
    forall i | 0 <= i < |rows| ensures rows[i].Keys == ColumnSet(columns) {
      assert df.rows[i] in df.rows;
      NormalizedRecordKeys(df.rows[i], df.columns, ext);
    }
    OutputColumnsDistinct(df.columns);
  }

  /** `preprocess_data(df)`: the table restricted to the whitelist, converted
      column by column, then extended by the derived columns. The result is
      the row-by-row `NormalizedRecord` of the input, or the `KeyError` the
      hashtag step raises when a non-empty table lacks `title` or `selftext`. */
  method PreprocessData(df: Frame, ext: Externals) returns (result: Result<Frame, Error>)
    requires WellFormed(df)
    ensures result.Failure? <==> |df.rows| > 0 && ("title" !in df.columns || "selftext" !in df.columns)
    ensures result.Failure? ==>
      result.error == KeyError(if "title" !in df.columns then "title" else "selftext")
    ensures result.Success? ==>
      && WellFormed(result.value)
      && result.value.columns == OutputColumns(df.columns)
      && |result.value.rows| == |df.rows|
      && forall i :: 0 <= i < |df.rows| ==> result.value.rows[i] == NormalizedRecord(df.rows[i], ext)
  {
    var columns := SelectedColumns(df.columns);
    var rows := RestrictRows(df.rows);
    forall i | 0 <= i < |rows| ensures rows[i].Keys == ColumnSet(columns) {
      assert df.rows[i] in df.rows;
    }
    rows := ConvertColumns(rows, columns, ext);
    if |rows| > 0 && "title" !in columns {
      return Failure(KeyError("title"));
    }
    if |rows| > 0 && "selftext" !in columns {
      return Failure(KeyError("selftext"));
    }
    ConvertedTable(df, columns, rows, ext);
    ghost var converted := rows;
    rows, columns := AddDerivedColumns(rows, columns);
    NormalizedTable(df, converted, rows, columns, ext);
    result := Success(Frame(columns, rows));
  }
}

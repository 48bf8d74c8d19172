/** The enrichment script (prepare_dashboard_data.py): the decision rules
    wrapped around the external models (the sentiment thresholds, the
    misinformation keyword match, the summarisation policy) and the
    script's sequence of column assignments that applies them to the
    normalized table. VADER, BERTopic, the T5 tokenizer and the T5
    summariser are uninterpreted functions passed in as parameters. */
module Enrichment {
  import opened Text
  import opened Wrappers
  import opened Frames

  // ----- sentiment -------------------------------------------------------

  /** The compound-score cut-off on either side of neutral. */
  const Cutoff: real := 0.05

  const SentimentLabels: set<string> := {"positive", "negative", "neutral"}

  /** The three-way classification of a VADER compound score; the cut-off
      values themselves are neutral. */
  function Classify(score: real): (sentiment: string)
    ensures sentiment in SentimentLabels
    ensures sentiment == "positive" <==> score > Cutoff
    ensures sentiment == "negative" <==> score < -Cutoff
    ensures sentiment == "neutral" <==> -Cutoff <= score <= Cutoff
  {
    if score > Cutoff then "positive"
    else if score < -Cutoff then "negative"
    else "neutral"
  }

  /** `get_sentiment(text)`; `polarity` is VADER's compound score. */
  function GetSentiment(text: string, polarity: string -> real): (sentiment: string)
    ensures sentiment in SentimentLabels
  {
    if Strip(text) == [] then "neutral" else Classify(polarity(text))
  }

  /** A blank text is neutral whatever the scorer would say; any other
      text is classified by its score. */
  lemma SentimentOfText(text: string, polarity: string -> real)
    ensures IsBlank(text) ==> GetSentiment(text, polarity) == "neutral"
    ensures !IsBlank(text) ==> GetSentiment(text, polarity) == Classify(polarity(text))
  {
    StripEmptyIffBlank(text);
  }

  // ----- misinformation flag ---------------------------------------------

  const MisinfoKeywords: seq<string> :=
    ["fake news", "hoax", "conspiracy", "debunked", "false claim", "misleading"]

  const CheckWorthy := "Check-worthy"
  const NotFlagged := "Not Flagged"

  /** Some word of `words` occurs in `hay` as a substring. */
  predicate MentionsAny(hay: string, words: seq<string>) {
    exists k :: 0 <= k < |words| && Contains(hay, words[k])
  }

  /** `any(word in hay for word in words)`. */
  function AnyContained(hay: string, words: seq<string>): (found: bool)
    ensures found <==> MentionsAny(hay, words)
  {
    if words == [] then false
    else if Contains(hay, words[0]) then true
    else
      var rest := AnyContained(hay, words[1..]);
      assert forall k :: 1 <= k < |words| ==> words[k] == words[1..][k - 1];
      rest
  }

  /** Every keyword starts with a letter, so a blank text contains none. */
  lemma BlankMentionsNoKeyword(text: string)
    requires IsBlank(text)
    ensures !MentionsAny(Lower(text), MisinfoKeywords)
  {
    LowerKeepsBlank(text);
    forall k | 0 <= k < |MisinfoKeywords|
      ensures !Contains(Lower(text), MisinfoKeywords[k])
    {
      var w := MisinfoKeywords[k];
      assert !IsSpace(w[0]);
      if Contains(Lower(text), w) {
        BlankContainsOnlyBlank(Lower(text), w);
      }
    }
  }

  /** `flag_misinformation(text)`. */
  function FlagMisinformation(text: string): (flag: string)
    ensures flag == CheckWorthy || flag == NotFlagged
  {
    if Strip(text) == [] then NotFlagged
    else if AnyContained(Lower(text), MisinfoKeywords) then CheckWorthy
    else NotFlagged
  }

  /** Check-worthy exactly when the lower-cased text contains one of the
      keywords: the blank-text shortcut never changes the answer. */
  lemma FlagIffKeyword(text: string)
    ensures FlagMisinformation(text) == CheckWorthy <==> MentionsAny(Lower(text), MisinfoKeywords)
  {
    StripEmptyIffBlank(text);
    if IsBlank(text) {
      BlankMentionsNoKeyword(text);
    }
  }

  lemma BlankIsNotFlagged(text: string)
    requires IsBlank(text)
    ensures FlagMisinformation(text) == NotFlagged
  {
    StripEmptyIffBlank(text);
  }

  /** The match ignores case: upper-casing the text keeps its flag. */
  lemma FlagIgnoresCase(text: string)
    ensures FlagMisinformation(Upper(text)) == FlagMisinformation(text)
  {
    LowerOfUpper(text);
    FlagIffKeyword(text);
    FlagIffKeyword(Upper(text));
  }

  /** A flagged text stays flagged whatever surrounds it. */
  lemma FlagSurvivesContext(before: string, text: string, after: string)
    requires FlagMisinformation(text) == CheckWorthy
    ensures FlagMisinformation(before + text + after) == CheckWorthy
  {
    FlagIffKeyword(text);
    var k :| 0 <= k < |MisinfoKeywords| && Contains(Lower(text), MisinfoKeywords[k]);
    FlagIffKeyword(before + text + after);
    ContainsExtended(Lower(text), MisinfoKeywords[k], Lower(before), Lower(after));
    LowerAppend(before, text);
    LowerAppend(before + text, after);
  }

  /** The match is a plain substring test: a keyword inside a longer word
      counts. */
  lemma KeywordInsideWord()
    ensures FlagMisinformation("Hoaxes") == CheckWorthy
  {
    var low := Lower("Hoaxes");
    assert low == "hoaxes";
    assert OccursAt(low, MisinfoKeywords[1], 0);
    FlagIffKeyword("Hoaxes");
  }

  // ----- summary ---------------------------------------------------------

  /** The tokenizer's truncation budget. */
  const MaxInputTokens: nat := 512

  /** Texts whose stripped length is below this are returned unchanged. */
  const MinSummaryChars: nat := 30

  /** Encodings shorter than this are returned unchanged. */
  const MinSummaryTokens: nat := 10

  type Token = int

  /** The T5 tokenizer and summarisation pipeline. `summarize(input,
      maxLength, minLength)` yields the summary text, or the message of the
      exception it raised. */
  datatype SummaryModels = SummaryModels(
    encode: string -> seq<Token>,
    decode: seq<Token> -> string,
    summarize: (string, nat, nat) -> Result<string, string>)

  /** `tokenizer.encode(text, truncation=True, max_length=512)`: the
      encoding cut to the first 512 tokens. */
  function EncodeTruncated(text: string, models: SummaryModels): (tokens: seq<Token>)
    ensures |tokens| <= MaxInputTokens
    ensures tokens <= models.encode(text)
    ensures |models.encode(text)| <= MaxInputTokens ==> tokens == models.encode(text)
  {
    var all := models.encode(text);
    if |all| <= MaxInputTokens then all else all[..MaxInputTokens]
  }

  function Min(a: int, b: int): int { if a <= b then a else b }

  function Max(a: int, b: int): int { if a <= b then b else a }

  /** `max_len = min(50, max(10, int(n * 0.6)))`. For every token count up
      to the 512 budget the floating-point product `n * 0.6` truncates to
      the same integer as 3n/5, which is what is used here. The result is
      clamped to [10, 50], saturating at 50 from 84 tokens on and at 10 up
      to 18 tokens; in between it is 3n/5 rounded down. */
  function MaxLength(n: nat): (m: nat)
    ensures 10 <= m <= 50
    ensures m == 50 <==> n >= 84
    ensures m == 10 <==> n <= 18
    ensures 18 <= n <= 84 ==> 5 * m <= 3 * n < 5 * m + 5
  {
    Min(50, Max(10, n * 3 / 5))
  }

  /** `min_len = min(10, max_len // 2)`: within [5, 10] and never above
      the maximum whenever the maximum is within [10, 50]. */
  function MinLength(maxLen: nat): (m: nat)
    ensures m <= 10 && 2 * m <= maxLen
    ensures 10 <= maxLen <= 50 ==> 5 <= m <= 10 && m <= maxLen
    ensures maxLen >= 20 ==> m == 10
    ensures maxLen < 20 ==> m == maxLen / 2
  {
    Min(10, maxLen / 2)
  }

  /** One call of the summariser: its input and its length bounds. */
  datatype Request = Request(input: string, maxLength: nat, minLength: nat)

  /** What `generate_summary` decides before calling the summariser: no
      call for a text under 30 stripped characters or under 10 tokens;
      otherwise a call on the decoded (truncated) encoding, with bounds
      10 <= maxLength <= 50 and 5 <= minLength <= maxLength. */
  function PlanSummary(text: string, models: SummaryModels): (req: Option<Request>)
    ensures req.None? <==>
      |Strip(text)| < MinSummaryChars || |EncodeTruncated(text, models)| < MinSummaryTokens
    ensures req.Some? ==>
      && req.value.input == models.decode(EncodeTruncated(text, models))
      && 10 <= req.value.maxLength <= 50
      && 5 <= req.value.minLength <= 10
      && req.value.minLength <= req.value.maxLength
    ensures req.Some? ==>
      && req.value.maxLength == MaxLength(|EncodeTruncated(text, models)|)
      && req.value.minLength == MinLength(req.value.maxLength)
    ensures req.Some? && |models.encode(text)| >= 84 ==> req.value.maxLength == 50
  {
    if |Strip(text)| < MinSummaryChars then None
    else
      var tokens := EncodeTruncated(text, models);
      if |tokens| < MinSummaryTokens then None
      else
        var maxLen := MaxLength(|tokens|);
        Some(Request(models.decode(tokens), maxLen, MinLength(maxLen)))
  }

  /** `generate_summary(text)`. Short texts come back unchanged; so does
      every text whose summarisation failed, since the failure is caught.
      Anything else returned is the summariser's output for the planned
      request. */
  function GenerateSummary(text: string, models: SummaryModels): (summary: string)
    ensures |Strip(text)| < MinSummaryChars ==> summary == text
    ensures |EncodeTruncated(text, models)| < MinSummaryTokens ==> summary == text
    ensures PlanSummary(text, models).Some? ==>
      var req := PlanSummary(text, models).value;
      models.summarize(req.input, req.maxLength, req.minLength).Failure? ==> summary == text
    ensures PlanSummary(text, models).Some? ==>
      var req := PlanSummary(text, models).value;
      models.summarize(req.input, req.maxLength, req.minLength).Success? ==>
        summary == models.summarize(req.input, req.maxLength, req.minLength).value
    ensures summary != text ==>
      && PlanSummary(text, models).Some?
      && var req := PlanSummary(text, models).value;
         models.summarize(req.input, req.maxLength, req.minLength) == Success(summary)
  {
    match PlanSummary(text, models)
    case None => text
    case Some(req) =>
      match models.summarize(req.input, req.maxLength, req.minLength)
      case Success(s) => s
      case Failure(_) => text
  }

  // ----- the script's column assignments -----------------------------------

  /** The external capabilities the script calls. `render` is
      `astype(str)` on a cell that is not already a string; `topics` is
      BERTopic's `fit_transform` over the whole corpus. */
  datatype Models = Models(
    render: Cell -> string,
    polarity: string -> real,
    topics: seq<string> -> seq<int>,
    summary: SummaryModels)

  /** `astype(str)` on one cell. */
  function AsText(v: Cell, render: Cell -> string): (s: string)
    ensures v.Str? ==> s == v.s
    ensures !v.Str? ==> s == render(v)
  {
    if v.Str? then v.s else render(v)
  }

  /** A cell `+` can join to a string once `fillna('')` has replaced the
      missing values: a string or a missing value. */
  predicate IsTextCell(v: Cell) {
    v.Null? || v.Str?
  }

  /** Every row's `col` cell is a text cell. */
  predicate AllText(rows: seq<Row>, col: string) {
    forall i :: 0 <= i < |rows| ==> IsTextCell(CellOf(rows[i], col))
  }

  /** The per-cell computations behind the new columns. */
  datatype Passes = Passes(
    sentiment: Cell -> Cell,
    combine: (Cell, Cell) -> Cell,
    flag: Cell -> Cell,
    summary: Cell -> Cell)

  /** The passes of the script: `get_sentiment`, the `fillna('')` join,
      `flag_misinformation` and `generate_summary`, each on `astype(str)`
      of its input column. */
  function ScriptPasses(models: Models): Passes {
    Passes(
      v => Str(GetSentiment(AsText(v, models.render), models.polarity)),
      (t, b) => Str(TextOf(t) + " " + TextOf(b)),
      v => Str(FlagMisinformation(AsText(v, models.render))),
      v => Str(GenerateSummary(AsText(v, models.render), models.summary)))
  }

  /** A sentiment cell holds one of the three labels. */
  lemma ScriptSentimentValues(models: Models, v: Cell)
    ensures ScriptPasses(models).sentiment(v) == Str(GetSentiment(AsText(v, models.render), models.polarity))
    ensures ScriptPasses(models).sentiment(v).s in SentimentLabels
  {
  }

  /** A flag cell holds one of the two flags. */
  lemma ScriptFlagValues(models: Models, v: Cell)
    ensures var f := ScriptPasses(models).flag(v);
      f == Str(FlagMisinformation(AsText(v, models.render)))
      && (f == Str(CheckWorthy) || f == Str(NotFlagged))
  {
  }

  /** A summary cell holds the text itself, or the summariser's successful
      output on the request planned for that text. */
  lemma ScriptSummaryValues(models: Models, v: Cell)
    ensures var text := AsText(v, models.render);
      var plan := PlanSummary(text, models.summary);
      var cell := ScriptPasses(models).summary(v);
      && cell.Str?
      && (|| cell.s == text
          || (&& plan.Some?
              && models.summary.summarize(plan.value.input, plan.value.maxLength, plan.value.minLength)
                 == Success(cell.s)))
  {
    var text := AsText(v, models.render);
    assert ScriptPasses(models).summary(v) == Str(GenerateSummary(text, models.summary));
  }

  /** The combined text of a row is its title and body around a space, a
      missing side reading as the empty string. */
  lemma ScriptCombineValues(models: Models, t: Cell, b: Cell)
    requires IsTextCell(t) && IsTextCell(b)
    ensures var c := ScriptPasses(models).combine(t, b);
      && (t.Str? && b.Str? ==> c == Str(t.s + " " + b.s))
      && (t.Null? && b.Str? ==> c == Str(" " + b.s))
      && (t.Str? && b.Null? ==> c == Str(t.s + " "))
      && (t.Null? && b.Null? ==> c == Str(" "))
  {
    assert ScriptPasses(models).combine(t, b) == Str(TextOf(t) + " " + TextOf(b));
  }

  /** A cell of a row, missing as `Null`. */
  function CellOf(r: Row, c: string): Cell {
    if c in r then r[c] else Null
  }

  /** The corpus handed to the topic model: the combined text of each row. */
  function Corpus(rows: seq<Row>, p: Passes): (texts: seq<string>)
    ensures |texts| == |rows|
  {
    seq(|rows|, i requires 0 <= i < |rows| =>
      TextOf(p.combine(CellOf(rows[i], "title"), CellOf(rows[i], "selftext"))))
  }

  /** The script's corpus: each row's title and body, missing values read
      as empty strings, joined by a space. */
  lemma ScriptCorpus(rows: seq<Row>, models: Models)
    requires AllText(rows, "title") && AllText(rows, "selftext")
    ensures forall i :: 0 <= i < |rows| ==>
      Corpus(rows, ScriptPasses(models))[i]
        == TextOf(CellOf(rows[i], "title")) + " " + TextOf(CellOf(rows[i], "selftext"))
  {
    var p := ScriptPasses(models);
    forall i | 0 <= i < |rows|
      ensures Corpus(rows, p)[i]
        == TextOf(CellOf(rows[i], "title")) + " " + TextOf(CellOf(rows[i], "selftext"))
    {
      var t, b := CellOf(rows[i], "title"), CellOf(rows[i], "selftext");
      assert p.combine(t, b) == Str(TextOf(t) + " " + TextOf(b));
    }
  }

  /** `df[col]` of a text column, as the list of strings it holds. */
  function TextColumn(rows: seq<Row>, col: string): (texts: seq<string>)
    ensures |texts| == |rows|
    ensures forall i :: 0 <= i < |rows| && col in rows[i] ==> texts[i] == TextOf(rows[i][col])
  {
    seq(|rows|, i requires 0 <= i < |rows| => TextOf(CellOf(rows[i], col)))
  }

  /** A list of topic ids as integer cells. */
  function IntCells(xs: seq<int>): (cells: seq<Cell>)
    ensures |cells| == |xs|
    ensures forall i :: 0 <= i < |xs| ==> cells[i] == Int(xs[i])
  {
    seq(|xs|, i requires 0 <= i < |xs| => Int(xs[i]))
  }

  /** The columns the script adds. */
  predicate IsEnrichmentColumn(c: string) {
    || c == "title_sentiment" || c == "selftext_sentiment" || c == "combined_text"
    || c == "topic" || c == "misinformation_flag" || c == "summary"
  }

  /** The column list after the six assignments: the input columns in
      their places, then those of the new columns not already present. */
  function EnrichedColumns(columns: seq<string>): (cs: seq<string>)
    ensures forall c :: c in cs <==> c in columns || IsEnrichmentColumn(c)
    ensures columns <= cs
    ensures Distinct(columns) ==> Distinct(cs)
  {
    var c1 := WithColumn(columns, "title_sentiment");
    var c2 := WithColumn(c1, "selftext_sentiment");
    var c3 := WithColumn(c2, "combined_text");
    var c4 := WithColumn(c3, "topic");
    var c5 := WithColumn(c4, "misinformation_flag");
    WithColumn(c5, "summary")
  }

  /** A record after the three text passes: the sentiment of its title
      and of its body, and their join. */
  function TextRecord(r: Row, p: Passes): (t: Row)
    requires "title" in r && "selftext" in r
    ensures forall c :: c in t <==>
      (c in r || c == "title_sentiment" || c == "selftext_sentiment" || c == "combined_text")
  {
    r["title_sentiment" := p.sentiment(r["title"])]
     ["selftext_sentiment" := p.sentiment(r["selftext"])]
     ["combined_text" := p.combine(r["title"], r["selftext"])]
  }

  /** One enriched record: the six new cells, each computed from the
      record's own title or body, and every other cell as it was. */
  function EnrichedRecord(r: Row, topic: int, p: Passes): (e: Row)
    requires "title" in r && "selftext" in r
    ensures forall c :: c in e <==> c in r || IsEnrichmentColumn(c)
    ensures forall c :: c in r && !IsEnrichmentColumn(c) ==> e[c] == r[c]
  {
    TextRecord(r, p)
     ["topic" := Int(topic)]
     ["misinformation_flag" := p.flag(r["title"])]
     ["summary" := p.summary(r["selftext"])]
  }

  /** The three text passes, each reading the record as the previous ones
      left it, amount to `TextRecord`: none reads a column an earlier one
      wrote. */
  lemma TextSteps(r: Row, p: Passes)
    requires "title" in r && "selftext" in r
    ensures
      var r1 := r["title_sentiment" := p.sentiment(r["title"])];
      var r2 := r1["selftext_sentiment" := p.sentiment(r1["selftext"])];
      r2["combined_text" := p.combine(r2["title"], r2["selftext"])] == TextRecord(r, p)
  {
    var r1 := r["title_sentiment" := p.sentiment(r["title"])];
    var r2 := r1["selftext_sentiment" := p.sentiment(r1["selftext"])];
    assert r1["selftext"] == r["selftext"];
    assert r2["title"] == r["title"] && r2["selftext"] == r["selftext"];
  }

  /** Likewise the three later passes complete `EnrichedRecord`. */
  lemma LaterSteps(r: Row, topic: int, p: Passes)
    requires "title" in r && "selftext" in r
    ensures
      var r4 := TextRecord(r, p)["topic" := Int(topic)];
      var r5 := r4["misinformation_flag" := p.flag(r4["title"])];
      r5["summary" := p.summary(r5["selftext"])] == EnrichedRecord(r, topic, p)
  {
    var r3 := TextRecord(r, p);
    var r4 := r3["topic" := Int(topic)];
    var r5 := r4["misinformation_flag" := p.flag(r4["title"])];
    assert r3["title"] == r["title"] && r3["selftext"] == r["selftext"];
    assert r4["title"] == r["title"];
    assert r5["selftext"] == r["selftext"];
  }

  /** The corpus the topic model reads is the combined text of the input
      rows. */
  lemma CorpusOfTextRecords(raw: seq<Row>, rows: seq<Row>, p: Passes)
    requires forall i :: 0 <= i < |raw| ==> "title" in raw[i] && "selftext" in raw[i]
    requires |rows| == |raw|
    requires forall i :: 0 <= i < |raw| ==> rows[i] == TextRecord(raw[i], p)
    ensures TextColumn(rows, "combined_text") == Corpus(raw, p)
  {
    forall i | 0 <= i < |raw| ensures TextColumn(rows, "combined_text")[i] == Corpus(raw, p)[i] {
      assert rows[i]["combined_text"] == p.combine(CellOf(raw[i], "title"), CellOf(raw[i], "selftext"));
    }
  }

  /** The enriched rows have exactly the enriched columns. */
  lemma EnrichedTable(df: Frame, rows: seq<Row>, topics: seq<int>, p: Passes)
    requires WellFormed(df)
    requires |rows| == |df.rows| <= |topics|
    requires forall i :: 0 <= i < |rows| ==>
      "title" in df.rows[i] && "selftext" in df.rows[i] && rows[i] == EnrichedRecord(df.rows[i], topics[i], p)
    ensures WellFormed(Frame(EnrichedColumns(df.columns), rows))
  {
    forall i | 0 <= i < |rows| ensures rows[i].Keys == ColumnSet(EnrichedColumns(df.columns)) {
      assert df.rows[i] in df.rows;
      EnrichedRecordColumns(df.rows[i], df.columns, topics[i], p);
    }
  }

  lemma EnrichedRecordColumns(r: Row, columns: seq<string>, topic: int, p: Passes)
    requires "title" in r && "selftext" in r
    requires r.Keys == ColumnSet(columns)
    ensures EnrichedRecord(r, topic, p).Keys == ColumnSet(EnrichedColumns(columns))
  {
    var e := EnrichedRecord(r, topic, p);
    var cs := EnrichedColumns(columns);
    forall c ensures c in e <==> c in cs {
      assert c in r <==> c in columns;
    }
  }

  /** A table with `title` and `selftext` columns has them in every row. */
  lemma TextColumnsPresent(df: Frame)
    requires WellFormed(df) && "title" in df.columns && "selftext" in df.columns
    ensures forall i :: 0 <= i < |df.rows| ==> "title" in df.rows[i] && "selftext" in df.rows[i]
  {
    forall i | 0 <= i < |df.rows| ensures "title" in df.rows[i] && "selftext" in df.rows[i] {
      assert df.rows[i] in df.rows;
    }
  }

  /** The sentiment columns and the combined text
      (prepare_dashboard_data.py:26-27, 32), assigned one after the other. */
  method TextPasses(raw: seq<Row>, p: Passes) returns (rows: seq<Row>)
    requires forall i :: 0 <= i < |raw| ==> "title" in raw[i] && "selftext" in raw[i]
    ensures |rows| == |raw|
    ensures forall i :: 0 <= i < |raw| ==> rows[i] == TextRecord(raw[i], p)
  {
    var rows1 := DeriveColumn(raw, "title", "title_sentiment", p.sentiment);
    var rows2 := DeriveColumn(rows1, "selftext", "selftext_sentiment", p.sentiment);
    rows := CombineColumns(rows2, "title", "selftext", "combined_text", p.combine);
    forall i | 0 <= i < |raw| ensures rows[i] == TextRecord(raw[i], p) {
      TextSteps(raw[i], p);
    }
  }

  /** The topic, flag and summary columns (prepare_dashboard_data.py:35,
      49, 79), assigned one after the other. */
  method LaterPasses(raw: seq<Row>, texts: seq<Row>, topics: seq<int>, p: Passes) returns (rows: seq<Row>)
    requires forall i :: 0 <= i < |raw| ==> "title" in raw[i] && "selftext" in raw[i]
    requires |texts| == |topics| == |raw|
    requires forall i :: 0 <= i < |raw| ==> texts[i] == TextRecord(raw[i], p)
    ensures |rows| == |raw|
    ensures forall i :: 0 <= i < |raw| ==> rows[i] == EnrichedRecord(raw[i], topics[i], p)
  {
    var rows4 := SetColumn(texts, "topic", IntCells(topics));
    var rows5 := DeriveColumn(rows4, "title", "misinformation_flag", p.flag);
    rows := DeriveColumn(rows5, "selftext", "summary", p.summary);
    forall i | 0 <= i < |raw| ensures rows[i] == EnrichedRecord(raw[i], topics[i], p) {
      LaterSteps(raw[i], topics[i], p);
    }
  }

  datatype EnrichError =
    | KeyError(column: string)
    | TypeError(column: string)
    | LengthMismatch(rows: nat, values: nat)

  /** The sequence of column assignments of the script, for any passes and
      topic model. Missing `title` or `selftext` columns raise a KeyError;
      a topic list whose length differs from the row count raises in the
      assignment. On success every input column and cell is kept and the
      six new columns hold `EnrichedRecord`'s values. */
  method ApplyPasses(df: Frame, p: Passes, topicModel: seq<string> -> seq<int>)
    returns (result: Result<Frame, EnrichError>)
    requires WellFormed(df)
    ensures result.Failure? <==>
      || "title" !in df.columns || "selftext" !in df.columns
      || |topicModel(Corpus(df.rows, p))| != |df.rows|
    ensures result.Failure? && "title" !in df.columns ==> result.error == KeyError("title")
    ensures result.Success? ==>
      var topics := topicModel(Corpus(df.rows, p));
      && WellFormed(result.value)
      && result.value.columns == EnrichedColumns(df.columns)
      && |result.value.rows| == |df.rows|
      && forall i :: 0 <= i < |df.rows| ==>
           && "title" in df.rows[i] && "selftext" in df.rows[i]
           && result.value.rows[i] == EnrichedRecord(df.rows[i], topics[i], p)
  {
    if "title" !in df.columns {
      return Failure(KeyError("title"));
    }
    if "selftext" !in df.columns {
      return Failure(KeyError("selftext"));
    }
    TextColumnsPresent(df);
    var texts := TextPasses(df.rows, p);
    var topics := topicModel(TextColumn(texts, "combined_text"));
    CorpusOfTextRecords(df.rows, texts, p);
    if |topics| != |texts| {
      return Failure(LengthMismatch(|texts|, |topics|));
    }
    var rows := LaterPasses(df.rows, texts, topics, p);
    EnrichedTable(df, rows, topics, p);
    result := Success(Frame(EnrichedColumns(df.columns), rows));
  }

  /** The script body from the sentiment pass to the summaries
      (prepare_dashboard_data.py:26-79), on a table already read. A missing
      `title` or `selftext` column raises a KeyError in the sentiment pass;
      a `title` and then a `selftext` cell that is neither a string nor
      missing makes the `+` of the combined text raise a TypeError; a topic
      list of the wrong length raises in its assignment. */
  method Enrich(df: Frame, models: Models) returns (result: Result<Frame, EnrichError>)
    requires WellFormed(df)
    ensures "title" !in df.columns ==> result == Failure(KeyError("title"))
    ensures "title" in df.columns && "selftext" !in df.columns ==>
      result == Failure(KeyError("selftext"))
    ensures "title" in df.columns && "selftext" in df.columns && !AllText(df.rows, "title") ==>
      result == Failure(TypeError("title"))
    ensures
      && "title" in df.columns && "selftext" in df.columns
      && AllText(df.rows, "title") && !AllText(df.rows, "selftext")
      ==> result == Failure(TypeError("selftext"))
    ensures result.Failure? <==>
      || "title" !in df.columns || "selftext" !in df.columns
      || !AllText(df.rows, "title") || !AllText(df.rows, "selftext")
      || |models.topics(Corpus(df.rows, ScriptPasses(models)))| != |df.rows|
    ensures result.Success? ==>
      var topics := models.topics(Corpus(df.rows, ScriptPasses(models)));
      && WellFormed(result.value)
      && result.value.columns == EnrichedColumns(df.columns)
      && |result.value.rows| == |df.rows|
      && forall i :: 0 <= i < |df.rows| ==>
           && "title" in df.rows[i] && "selftext" in df.rows[i]
           && IsTextCell(df.rows[i]["title"]) && IsTextCell(df.rows[i]["selftext"])
           && result.value.rows[i] == EnrichedRecord(df.rows[i], topics[i], ScriptPasses(models))
  {
    if "title" !in df.columns {
      return Failure(KeyError("title"));
    }
    if "selftext" !in df.columns {
      return Failure(KeyError("selftext"));
    }
    if !AllText(df.rows, "title") {
      return Failure(TypeError("title"));
    }
    if !AllText(df.rows, "selftext") {
      return Failure(TypeError("selftext"));
    }
    TextColumnsPresent(df);
    result := ApplyPasses(df, ScriptPasses(models), models.topics);
    assert result.Success? ==> forall i :: 0 <= i < |df.rows| ==>
      CellOf(df.rows[i], "title") == df.rows[i]["title"]
      && CellOf(df.rows[i], "selftext") == df.rows[i]["selftext"];
  }
}

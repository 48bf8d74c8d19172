# Reddit dashboard pipeline — a Dafny model

The system is a three-stage offline pipeline over Reddit posts:

1. `preprocessing.py` normalizes the raw records. It keeps a whitelist of
   columns, cleans the title and body text, lower-cases the subreddit,
   coerces the vote counters to integers, and derives `hashtags`,
   `keywords` and `domain`.
2. `prepare_dashboard_data.py` enriches the normalized table. It adds the
   sentiment of the title and of the body, a combined text, a topic id, a
   misinformation flag and a summary of the body.
3. `dashboard.py` shows the enriched table. It optionally joins topic
   names, narrows the table with three sidebar filters, and draws charts,
   among them a graph of subreddits that share hashtags.

The model covers the rules underneath: the text cleaning, the extraction
scans, the column-by-column normalization, the decision rules around the
machine-learning models, the enrichment column assignments, the label
join, the filter chain and the hashtag graph.

Modules, one per concern:

- `Wrappers` holds `Option` and `Result`.
- `Text` holds whitespace, word characters, ASCII case, substring search and `strip`.
- `Frames` holds a table as an ordered column list plus rows (maps from column name to cell), with boolean-mask selection, `unique()` and column assignment.
- `Cleaning` models `clean_text`.
- `Extraction` models the hashtag and keyword scans and `urlparse(...).netloc`.
- `Preprocessing` models `preprocess_data`.
- `Enrichment` models the enrichment script.
- `Dashboard` models the label join and the filter chain.
- `CoGraph` models the hashtag graph.

Where code updates state in place, the model is imperative:

- `PreprocessData`, `ConvertColumns` and `ApplyStep` reassign the table one column conversion at a time. The two loops over the text and counter columns are `for` loops with invariants.
- `ApplyPasses`, `TextPasses` and `LaterPasses` add the enrichment columns one after the other.
- `FilterFrame` narrows the table filter by filter.
- The graph is a class `Graph` whose edge map `AddEdge` updates. `LinkAll` and `BuildGraph` are the nested loops that fill it.

Each method is proved against a declarative function: `NormalizedRecord`, `EnrichedRecord`, `Selected` or `GraphEdges`. The properties of the pipeline are then proved as lemmas about those functions.

External code is passed in as function-typed parameters and is not interpreted:

- BeautifulSoup's `get_text`;
- `pd.to_datetime` on one value;
- the string parsing of `pd.to_numeric`;
- `astype(str)` on a non-string cell;
- VADER's compound score;
- BERTopic's `fit_transform`;
- the T5 tokenizer's `encode` and `decode`;
- the summarisation pipeline, which returns `Success(summary)` or `Failure(message)` for an exception.

Some behaviours of the code are easy to miss. The model keeps them:

- `astype(int)` truncates the counters toward zero (preprocessing.py:56). So an upvote ratio of 0.97 becomes 0 (`RatioCollapses`).
- A keyword is a run of `\w` characters (letters, digits and `_`), not only letters (preprocessing.py:60).
- `clean_text` is not idempotent when markup wraps a sentinel (preprocessing.py:22-25). `<b>[deleted]</b>` cleans to `[deleted]`, and cleaning that again gives `""`. Only the whitespace collapse is idempotent (`CollapseIdempotent`).
- `max_len` is `int(input_len * 0.6)` clamped to [10, 50] (prepare_dashboard_data.py:69). `int` truncates, so 21 tokens give 12 where rounding would give 13.
- The combined text joins `title` and `selftext` with `+` after `fillna('')` (prepare_dashboard_data.py:32). A cell that is neither a string nor missing makes that `+` raise a `TypeError`, which stops the script.

## Model

| member | source | states |
|---|---|---|
| Text.StripEmptyIffBlank | prepare_dashboard_data.py:21 | `s.strip() == ""` holds exactly when every character of `s` is whitespace |
| Text.Strip | prepare_dashboard_data.py:21 | `strip()` never lengthens a string and leaves no whitespace at either end |
| Text.Lower | preprocessing.py:60 | `lower()` keeps the length and lower-cases each character |
| Text.Contains | prepare_dashboard_data.py:47 | the empty string is in every string, and a contained string is no longer than its container |
| Frames.TextOf | prepare_dashboard_data.py:32 | `fillna('')` on a text cell: a string is kept, a missing value reads as `""` |
| Frames.Filter | dashboard.py:45 | boolean-mask selection keeps exactly the rows satisfying the mask, in their original order; a kept row occurs as often as in the input, and a dropped row not at all |
| Frames.FilterFilter | dashboard.py:44-50 | selecting by one mask and then another equals selecting once by their conjunction |
| Frames.Unique | dashboard.py:224 | `unique()` lists every value of the input once and nothing else |
| Frames.UniquePrefix | dashboard.py:224 | `unique()` keeps first-appearance order: the distinct values of any prefix come first, in the same order |
| Frames.WithColumn | prepare_dashboard_data.py:26 | assigning a column keeps an existing column in its place and appends a new one; names stay distinct |
| Cleaning.CollapseWhitespace | preprocessing.py:25 | the result is the input's maximal non-whitespace runs, in order, joined by single spaces; so it has no whitespace at either end and no two adjacent spaces, and keeps the input's non-whitespace characters in order |
| Cleaning.CollapseFixesNormalized | preprocessing.py:25 | text already in collapsed form is left unchanged |
| Cleaning.CollapseIdempotent | preprocessing.py:25 | collapsing twice gives the same text as collapsing once |
| Cleaning.CollapseBlank | preprocessing.py:25 | whitespace-only text collapses to the empty string |
| Cleaning.SplitSquash | preprocessing.py:25 | replacing each whitespace run by one space does not change the words |
| Cleaning.SplitStrip | preprocessing.py:25 | `strip()` does not change the words |
| Cleaning.NormalizedIsJoined | preprocessing.py:25 | a text in collapsed form is its own words joined by single spaces |
| Cleaning.FillNa | preprocessing.py:47 | `fillna(value)` replaces a missing cell by the string `value` and leaves every other cell alone |
| Cleaning.CleanText | preprocessing.py:21-26 | a non-string gives `""`; a text whose lower-cased form is `[deleted]` or `[removed]` gives `""`; any other text gives the words of its markup-stripped form joined by single spaces |
| Cleaning.MissingTextIsEmpty | preprocessing.py:46-47 | a missing title or body becomes `""` after fill and clean |
| Cleaning.SentinelAnyCase | preprocessing.py:22-23 | the sentinel test ignores case: any casing of a sentinel is dropped |
| Cleaning.PaddedSentinelIsKept | preprocessing.py:22-25 | the sentinel test does not trim: whitespace before a sentinel makes it ordinary text, which is stripped of markup and collapsed |
| Extraction.WordRunLen | preprocessing.py:59 | the greedy `\w+` run at the start of a string: all word characters, followed by a non-word character or the end |
| Extraction.Hashtags | preprocessing.py:59 | every hashtag found is a non-empty run of word characters with no `#` |
| Extraction.HashtagsAtEveryHash | preprocessing.py:59 | the scan that resumes after each match finds a tag at every `#` followed by a word character, left to right, duplicates kept; no tag is skipped or merged |
| Extraction.HashtagsOccur | preprocessing.py:59 | every hashtag found appears in the text right after a `#` |
| Extraction.Keywords | preprocessing.py:60 | every keyword is a run of at least four word characters; a lower-case text gives lower-case keywords |
| Extraction.KeywordsAtEveryWordStart | preprocessing.py:60 | the scan that resumes after each run yields, left to right, the maximal word run at every position that starts one (the text's start or after a non-word character) when that run has at least four characters; no keyword is skipped, split or merged |
| Extraction.KeywordsAreWholeWords | preprocessing.py:60 | every keyword occurs in the text as a whole word, with no word character on either side |
| Extraction.KeywordsOfJoinedWords | preprocessing.py:60 | round trip: words of four or more word characters, joined by spaces and scanned, come back unchanged, in order, duplicates kept |
| Extraction.ShortWordsAreSkipped | preprocessing.py:60 | a word shorter than four characters yields no keyword |
| Extraction.Netloc | preprocessing.py:31 | the network location never contains `/`, `?` or `#` |
| Extraction.ExtractDomain | preprocessing.py:29-32 | a string URL gives its network location; any other value gives `None` |
| Extraction.AfterSchemeOf | preprocessing.py:31 | a valid scheme followed by `:` is recognised and skipped |
| Extraction.NetlocOfAuthority | preprocessing.py:31 | after the scheme, `//host` followed by a path, query, fragment or nothing yields exactly `host` |
| Extraction.NetlocOfUrl | preprocessing.py:31 | round trip: the host written into `scheme://host/...` is the network location read back |
| Extraction.NetlocOfSchemeRelative | preprocessing.py:31 | round trip without a scheme: `//host/...` also yields `host` |
| Preprocessing.Trunc | preprocessing.py:56 | `int()` of a float truncates toward zero: the result lies within one of the input, on the zero side |
| Preprocessing.ToInt | preprocessing.py:56 | integers are kept; floats and numeric strings are truncated toward zero; a missing or non-numeric cell, and a string that does not parse as a number, become 0 |
| Preprocessing.TruncOdd | preprocessing.py:56 | truncation is symmetric about zero |
| Preprocessing.RatioCollapses | preprocessing.py:54-56 | a ratio in [0, 1] becomes 1 only when it is exactly 1, and 0 otherwise |
| Preprocessing.CleanCell | preprocessing.py:47 | a cleaned text cell is always a string in collapsed form |
| Preprocessing.LowerCell | preprocessing.py:51 | `str.lower()` gives the lower-cased string, which is lower-case and keeps its length; a non-string becomes missing |
| Preprocessing.CountCell | preprocessing.py:56 | a coerced counter cell is always an integer |
| Preprocessing.HashtagCell | preprocessing.py:59 | with title and body present, the `hashtags` cell is a list of non-empty tags without `#` |
| Preprocessing.KeywordCell | preprocessing.py:60 | with title and body present, the `keywords` cell is the list of long words found by scanning every word start of the lower-cased combined text (the independent reference `KeywordsAtWordStarts`), each lower-case and at least four characters long; otherwise missing |
| Preprocessing.DomainCell | preprocessing.py:63-64 | the `domain` cell is the network location of a string URL, and missing for any other value |
| Preprocessing.CombinedText | preprocessing.py:59-60 | `row['title'] + ' ' + row['selftext']` is the title, one space, then the body |
| Preprocessing.KeepPresent | preprocessing.py:37 | the list comprehension keeps exactly the names that are present |
| Preprocessing.KeepPresentOrdered | preprocessing.py:37 | the kept names keep their order and appear once each |
| Preprocessing.SelectedColumns | preprocessing.py:36-37 | the kept columns are exactly the whitelisted columns the table has |
| Preprocessing.SelectedColumnsOrdered | preprocessing.py:36-37 | the kept columns come in whitelist order, each once |
| Preprocessing.OutputColumns | preprocessing.py:36-64 | the normalized table has the present whitelisted columns, `hashtags`, `keywords`, and `domain` exactly when there is a `url` |
| Preprocessing.OutputColumnsDistinct | preprocessing.py:36-64 | no column of the normalized table appears twice |
| Preprocessing.Restrict | preprocessing.py:37 | restricting a record keeps exactly its whitelisted fields |
| Preprocessing.ConvertedRecord | preprocessing.py:37-56 | the converted record has exactly the whitelisted fields of the raw record |
| Preprocessing.WithDerived | preprocessing.py:59-64 | assigning the derived columns adds `hashtags`, `keywords`, and `domain` when there is a `url`, and removes nothing |
| Preprocessing.NormalizedRecord | preprocessing.py:37-64 | a normalized record has its whitelisted fields, `hashtags`, `keywords`, and `domain` exactly when it has a `url` |
| Preprocessing.DerivedNotWhitelisted | preprocessing.py:36-64 | no derived column shares its name with a whitelisted one, so the derived columns overwrite nothing |
| Preprocessing.NormalizedRecordKeys | preprocessing.py:36-64 | a normalized record has exactly the columns of the normalized table |
| Preprocessing.WithDerivedKeeps | preprocessing.py:59-64 | assigning the derived columns leaves every other field unchanged |
| Preprocessing.WithDerivedText | preprocessing.py:59-60 | the hashtags and keywords are computed from the record's converted title and body |
| Preprocessing.NormalizedLookup | preprocessing.py:40-56 | each kept field of a normalized record holds its converted value |
| Preprocessing.NormalizedRecordText | preprocessing.py:44-59 | title and body are the cleaned raw fields, hence normalized, and the hashtags come from the cleaned title, a space and the cleaned body |
| Preprocessing.NormalizedRecordHashtags | preprocessing.py:59 | the hashtags of a normalized record are non-empty tags without `#` |
| Preprocessing.NormalizedRecordKeywords | preprocessing.py:44-60 | the keywords of a normalized record are the keyword scan of the lower-cased cleaned title, a space and the cleaned body; each is lower-case and at least four characters long |
| Preprocessing.NormalizedSubreddit | preprocessing.py:50-51 | the subreddit is the lower-cased raw string, or missing when the raw value was not a string |
| Preprocessing.NormalizedCounters | preprocessing.py:54-56 | `score` and `upvote_ratio` hold the integer coercion of the raw value |
| Preprocessing.NormalizedKeepsUnconverted | preprocessing.py:36-37 | `url` and `author` are carried over unchanged |
| Preprocessing.RestrictRows | preprocessing.py:37 | the column selection restricts every row and keeps their number and order |
| Preprocessing.StagesComplete | preprocessing.py:40-56 | once all six conversions have run, a restricted record is the converted record |
| Preprocessing.ApplyStep | preprocessing.py:40-56 | one guarded in-place conversion converts its column in every row when the table has it, and leaves the table alone otherwise; either way every row advances one conversion |
| Preprocessing.ConvertColumns | preprocessing.py:39-56 | the timestamp step, the text loop, the subreddit step and the counter loop together convert every row through all six conversions, in source order |
| Preprocessing.AddDerivedColumns | preprocessing.py:58-64 | `hashtags`, then `keywords`, then `domain` (when there is a `url`) are appended to the columns, and each row gets the derived values |
| Preprocessing.NormalizedTable | preprocessing.py:35-66 | the rows after the derived columns are well formed and are the normalized records of the input |
| Preprocessing.PreprocessData | preprocessing.py:35-66 | of the exceptions the function can raise, models only the `KeyError`, raised exactly when a non-empty table lacks `title` or `selftext` (for a non-empty table with no whitelisted column, see "## Left out"); otherwise returns a well-formed table with the output columns whose every row is the normalized form of the input row |
| Enrichment.Classify | prepare_dashboard_data.py:24 | positive exactly above 0.05, negative exactly below -0.05, neutral otherwise (the cut-offs included) |
| Enrichment.GetSentiment | prepare_dashboard_data.py:20-24 | the sentiment is always one of the three labels |
| Enrichment.SentimentOfText | prepare_dashboard_data.py:20-24 | blank text is neutral whatever the scorer says; other text is classified by its score |
| Enrichment.AnyContained | prepare_dashboard_data.py:47 | `any(word in text ...)` is true exactly when some listed word is a substring of the text |
| Enrichment.BlankMentionsNoKeyword | prepare_dashboard_data.py:41 | no keyword occurs in whitespace-only text |
| Enrichment.FlagMisinformation | prepare_dashboard_data.py:43-47 | the flag is always `Check-worthy` or `Not Flagged` |
| Enrichment.FlagIffKeyword | prepare_dashboard_data.py:41-47 | a text is `Check-worthy` exactly when its lower-cased form contains one of the six keywords; the blank-text shortcut never changes the answer |
| Enrichment.BlankIsNotFlagged | prepare_dashboard_data.py:44-45 | empty or whitespace-only text is `Not Flagged` |
| Enrichment.FlagIgnoresCase | prepare_dashboard_data.py:46-47 | upper-casing the text does not change its flag |
| Enrichment.FlagSurvivesContext | prepare_dashboard_data.py:46-47 | a flagged text stays flagged when text is added before or after it |
| Enrichment.KeywordInsideWord | prepare_dashboard_data.py:41-47 | the match is a plain substring test: `Hoaxes` is flagged |
| Enrichment.EncodeTruncated | prepare_dashboard_data.py:59-64 | the truncated encoding has at most 512 tokens, is a prefix of the full encoding, and is the full encoding when that fits |
| Enrichment.MaxLength | prepare_dashboard_data.py:69 | `max_len` lies in [10, 50]; it is 50 exactly from 84 tokens on and 10 exactly up to 18; in between it is 3n/5 rounded down |
| Enrichment.MinLength | prepare_dashboard_data.py:70 | `min_len` is 10 from a `max_len` of 20 on and half of `max_len`, rounded down, below that; so for `max_len` in [10, 50] it lies in [5, 10] and never exceeds `max_len` |
| Enrichment.PlanSummary | prepare_dashboard_data.py:61-70 | no summariser call exactly when the stripped text is under 30 characters or the encoding under 10 tokens; otherwise a call on the decoded truncated encoding with `max_length` the `max_len` of the truncated token count and `min_length` the `min_len` of that, so 10 ≤ max ≤ 50 and 5 ≤ min ≤ max |
| Enrichment.GenerateSummary | prepare_dashboard_data.py:61-76 | short texts and texts whose summarisation raised come back unchanged; when the planned call succeeds its output is the summary; nothing else is ever returned |
| Enrichment.AsText | prepare_dashboard_data.py:26-27 | `astype(str)` keeps a string and renders any other cell |
| Enrichment.ScriptSentimentValues | prepare_dashboard_data.py:26-27 | a sentiment cell is `get_sentiment` of the rendered text, so one of the three labels |
| Enrichment.ScriptFlagValues | prepare_dashboard_data.py:49 | a flag cell is `flag_misinformation` of the rendered title, so one of the two flags |
| Enrichment.ScriptSummaryValues | prepare_dashboard_data.py:79 | a summary cell is the rendered body itself or the summariser's successful output on the call planned for it |
| Enrichment.ScriptCombineValues | prepare_dashboard_data.py:32 | the combined text of two text cells is the title, a space and the body, a missing side reading as `""` |
| Enrichment.ScriptCorpus | prepare_dashboard_data.py:32-34 | the corpus handed to BERTopic is, row by row, the filled title, a space and the filled body |
| Enrichment.EnrichedColumns | prepare_dashboard_data.py:26-79 | the enriched table keeps the input columns in place and adds the six new ones, each once |
| Enrichment.TextRecord | prepare_dashboard_data.py:26-32 | after the text passes a record has its fields plus the two sentiments and the combined text |
| Enrichment.EnrichedRecord | prepare_dashboard_data.py:26-79 | an enriched record has the input fields and the six new ones, and every other field keeps its value |
| Enrichment.TextSteps | prepare_dashboard_data.py:26-32 | the three text passes, each reading the record the previous one left, amount to computing all three from the input record |
| Enrichment.LaterSteps | prepare_dashboard_data.py:35-79 | the topic, flag and summary passes likewise read only the input title and body |
| Enrichment.CorpusOfTextRecords | prepare_dashboard_data.py:32-34 | the corpus handed to the topic model is the combined text of each input row |
| Enrichment.EnrichedTable | prepare_dashboard_data.py:26-79 | the enriched rows have exactly the enriched columns |
| Enrichment.TextPasses | prepare_dashboard_data.py:26-32 | the two sentiment columns and the combined text are assigned to every row |
| Enrichment.LaterPasses | prepare_dashboard_data.py:35-79 | the topic, flag and summary columns are assigned to every row |
| Enrichment.ApplyPasses | prepare_dashboard_data.py:26-79 | fails exactly when `title` or `selftext` is missing or the topic list does not match the row count; otherwise returns every input row extended by its six enriched cells |
| Enrichment.Enrich | prepare_dashboard_data.py:20-79 | a missing `title` and then a missing `selftext` raise a `KeyError`; a `title` and then a `selftext` cell that is neither a string nor missing raise a `TypeError`; a topic list of the wrong length fails; otherwise every input row is extended by the six cells of the script's own passes |
| Dashboard.TopicKey | dashboard.py:27 | an integer topic, or a float with an integral value, finds the entry for that integer; anything else finds none |
| Dashboard.LabelCell | dashboard.py:27 | a row's label is the map entry for its topic, or missing when there is none |
| Dashboard.WithTopicLabels | dashboard.py:25-28 | `topic_label` is added only when there is a `topic` column and the label map is non-empty; every other column and cell is kept |
| Dashboard.TopicColumn | dashboard.py:49 | the topic filter tests `topic_label` when that column exists, and `topic` otherwise |
| Dashboard.Keeps | dashboard.py:44-50 | a filter with nothing chosen keeps every row; otherwise a row passes exactly when its value is among the chosen |
| Dashboard.Shown | dashboard.py:43-50 | with nothing chosen every row is shown; a row is shown exactly when it passes every filter whose choice is not empty (both directions) |
| Dashboard.Selected | dashboard.py:43-50 | the shown rows are a subsequence of the table: a row survives exactly when it passes all three filters, as often as it occurs in the table |
| Dashboard.NothingSelected | dashboard.py:43-50 | with nothing chosen, the whole table is shown |
| Dashboard.FilterStep | dashboard.py:44-50 | a filter with an empty choice keeps every row; otherwise it keeps exactly the rows whose value is among the chosen |
| Dashboard.FilterSame | dashboard.py:44-50 | masks that agree on every row select the same rows |
| Dashboard.FilterFrame | dashboard.py:43-50 | the filter chain keeps the columns and leaves exactly the selected rows, in order |
| CoGraph.Graph.constructor | dashboard.py:218 | a new graph has no edges |
| CoGraph.Graph.AddEdge | dashboard.py:228 | `add_edge` creates the undirected edge or overwrites its label; nothing else changes |
| CoGraph.TitleTags | dashboard.py:221-224 | the exploded tags are exactly the hashtags of some title; bodies are not read |
| CoGraph.GraphTags | dashboard.py:221-224 | the outer loop visits each title hashtag once |
| CoGraph.Mentioning | dashboard.py:225 | lists exactly the subreddits of rows whose title contains `#tag`, ignoring case |
| CoGraph.TagSubreddits | dashboard.py:225 | `subs` holds those subreddits each once |
| CoGraph.Pairs | dashboard.py:226-228 | a list with fewer than two subreddits links no pair |
| CoGraph.Relabel | dashboard.py:226-228 | linking a set of pairs adds them with the new label and keeps every other edge and label |
| CoGraph.Overlay | dashboard.py:224-228 | the rounds only add or relabel edges; with no round the edges are unchanged |
| CoGraph.Rounds | dashboard.py:224-228 | each tag's round links the pairs of its subreddit list under that tag |
| CoGraph.GraphEdges | dashboard.py:218-228 | with no title hashtag the graph has no edge |
| CoGraph.LinkAll | dashboard.py:226-228 | the nested `i < j` loops link every pair of the list with the tag and keep every other edge and label |
| CoGraph.BuildGraph | dashboard.py:218-228 | the built graph has exactly the edges and labels of the declarative graph |
| CoGraph.TagIsMentioned | dashboard.py:221-225 | every visited tag is mentioned by the title it came from, so its subreddit list is never empty |
| CoGraph.MentionsLongerTag | dashboard.py:225 | the tag test is a substring test: a title containing `#policy` matches the tag `pol` |
| CoGraph.MentionsIgnoresCase | dashboard.py:225 | the tag test ignores case |
| CoGraph.PairsOfDistinct | dashboard.py:225-228 | in a duplicate-free list, `{a, b}` is a linked pair exactly when `a` and `b` differ and are both on it |
| CoGraph.PairIsProper | dashboard.py:226-228 | a pair of a duplicate-free list joins two different subreddits |
| CoGraph.OverlayKeys | dashboard.py:224-228 | after some rounds the edges are the earlier edges plus the pairs of those rounds |
| CoGraph.OverlayLabel | dashboard.py:224-228 | an edge carries the label of the last round that linked it |
| CoGraph.GraphEdgeKeys | dashboard.py:218-228 | the edges of the graph are the pairs of the visited tags |
| CoGraph.NoSelfLoops | dashboard.py:225-228 | no subreddit is linked to itself |
| CoGraph.LinkedIffSharedTag | dashboard.py:224-228 | `a` and `b` are linked exactly when they differ and some title hashtag is mentioned by a title in each |
| CoGraph.EdgeLabel | dashboard.py:224-228 | an edge's label is a tag both ends mention: the last such tag in first-appearance order, later ones never linking the pair |
| CoGraph.NodePartner | dashboard.py:218-228 | every node of the graph shares a visited tag with a different subreddit |
| CoGraph.NodeIffSharedTag | dashboard.py:224-228 | a subreddit is a node exactly when it shares a tag with another subreddit; one that shares none gets no node |

## Left out

- File and JSON input and output are not modelled. This covers `load_jsonl` (preprocessing.py:9-18), its `record.get('data', record)` unwrap, the CSV and JSON writes, `read_csv` in the later scripts, `topic_model.save`, and `st.cache_data`. The model starts from a table already read.
- BeautifulSoup's `get_text`, `pd.to_datetime`, the string parsing of `pd.to_numeric`, VADER, BERTopic, the T5 tokenizer and the summariser are parameters. Only the logic around them is modelled.
- `load_topic_labels` (dashboard.py:12-19) is not modelled. Its result is passed in as a map, empty when loading failed.
- Charts, Streamlit widgets, the sidebar option lists (dashboard.py:34-40), the daily resample, the top-10 bars, the word cloud, the spring layout, the `filtered_df.empty` guard and the `number_of_edges` check only feed plots. They are not modelled.
- Dashboard.Keeps: a filter whose column is missing drops every row, whereas `filtered_df[col]` at dashboard.py:45, 47 and 50 raises a `KeyError`. The script never reaches that case, because dashboard.py:34-36 read the same columns earlier.
- The graph is built from the rows it is given. The rows are not tied to `FilterFrame`'s result, and the extra `hashtags` column written onto `filtered_df` at dashboard.py:221 is not modelled.
- Missing values differ in the model:
  - `astype(str)` of a missing value (the string `"nan"`) comes from the `render` parameter.
  - The CSV round trip, which turns `""` into a missing value, is not modelled.
  - The classifier inputs are plain strings, so `pd.isna` never holds for them.
- `\w`, `str.lower()` and the case-insensitive match of `str.contains(..., case=False)` (CoGraph.MentionsTag) are ASCII-only in the model. Python's versions are Unicode-aware (`re.IGNORECASE` on `str` patterns folds non-ASCII letters too).
- Extraction.Netloc: covers only the scheme and authority rules of `urlsplit`. Three earlier or later steps of CPython are not modelled:
  - the removal of leading C0 control characters and spaces, so `" http://example.com/"` gives `"example.com"` in CPython and `""` in the model;
  - the removal of tab, CR and LF anywhere in the URL;
  - the `ValueError` raised for unbalanced or invalid brackets in the network location (`"http://[::1/x"`), and for a non-ASCII network location whose NFKC form contains a separator.
- Enrichment.MaxLength: computes `int(n * 0.6)` as 3n/5 rounded down. The floating-point product gives the same integer for every token count up to the 512 budget.
- Enrichment.EncodeTruncated: models `truncation=True` as keeping the first 512 tokens of the full encoding. The tokenizer's special end token is not modelled.
- Preprocessing.ToInt: booleans, values outside 64 bits and the `int64` overflow of `astype(int)` are not modelled. Nor are infinities: `json.loads` accepts `Infinity` and `to_numeric` parses `"inf"`, and `astype(int)` at preprocessing.py:56 then raises, whereas the model always returns an integer.
- The timestamp conversion is one uninterpreted function per cell. Whole-column failure modes of `pd.to_datetime` are not modelled.
- Preprocessing.PreprocessData: two exceptions that abort the function become `Success` in the model:
  - the `ValueError` that `urlparse` raises inside `extract_domain` (preprocessing.py:31, 64), for example on `"http://[::1/x"`. The model gives that row the domain `"[::1"`;
  - the `AttributeError` from `.str.lower()` (preprocessing.py:51) when the `subreddit` column holds no string at all, as a column of numbers does. The model makes each non-string subreddit missing (`LowerCell`).
- Preprocessing.PreprocessData: on an empty table, with or without `title` and `selftext`, it returns the empty normalized table. What pandas does with a row-wise `apply` on an empty frame, and with assigning its result, depends on its version. The same empty-axis path is taken by a non-empty table that keeps none of the whitelisted columns: its frame has no columns, so pandas calls the lambda once on an empty row, swallows the `KeyError`, and assigning the resulting frame to `df['hashtags']` (preprocessing.py:59) raises a `ValueError` in current pandas. The model reports `KeyError("title")` for that table instead.
- Enrichment.ApplyPasses: tests for `title` and `selftext` before the first pass. The script raises at the first pass that reads the missing column. Because the exception stops the script, no table is produced in either case.
- Enrichment.Enrich: tests the `title` and `selftext` cells before the first pass, in the script's order. The script raises its `TypeError` only after the sentiment columns are computed. Because the exception stops the script, no table is produced in either case.
- CoGraph: a missing `title` or `subreddit` column reads as missing values instead of raising a `KeyError`. Likewise a `title` column that holds no string at all reads as having no hashtags, whereas the `.str` accessor at dashboard.py:221 and 225 raises an `AttributeError` on it.

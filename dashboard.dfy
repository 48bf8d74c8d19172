/** The data side of the dashboard (dashboard.py): the optional topic-label
    join done when the enriched table is loaded, and the chain of sidebar
    filters that narrows it. The charts drawn from the filtered table are
    not modelled; the hashtag graph is in module CoGraph. */
module Dashboard {
  import opened Wrappers
  import opened Frames

  // ----- topic labels ------------------------------------------------------

  /** The dictionary key a topic cell looks up in `Series.map(label_map)`:
      an integer id, or a float with an integral value (which Python hashes
      and compares equal to that integer). Anything else, NaN included,
      finds no entry. */
  function TopicKey(v: Cell): (k: Option<int>)
    ensures v.Int? ==> k == Some(v.i)
    ensures v.Num? ==> (k.Some? <==> v.x == v.x.Floor as real)
    ensures k.Some? && v.Num? ==> k.value as real == v.x
    ensures !(v.Int? || v.Num?) ==> k.None?
  {
    match v
    case Int(i) => Some(i)
    case Num(x) => if x == x.Floor as real then Some(x.Floor) else None
    case _ => None
  }

  /** `Series.map(label_map)` on one cell: the label of its topic, or a
      missing value when the map has no entry for it. */
  function LabelCell(v: Cell, labels: map<int, string>): (w: Cell)
    ensures w.Str? <==> TopicKey(v).Some? && TopicKey(v).value in labels
    ensures w.Str? ==> w.s == labels[TopicKey(v).value]
    ensures !w.Str? ==> w == Null
  {
    match TopicKey(v)
    case Some(t) => if t in labels then Str(labels[t]) else Null
    case None => Null
  }

  /** The label join of `load_data`. `labels` is what `load_topic_labels`
      returned: the saved model's id-to-name table, or an empty map when
      the model could not be loaded. The `topic_label` column is added only
      when the table has a `topic` column and the map is not empty; every
      other column and cell is kept. */
  function WithTopicLabels(df: Frame, labels: map<int, string>): (out: Frame)
    requires WellFormed(df)
    ensures WellFormed(out)
    ensures !("topic" in df.columns && labels != map[]) ==> out == df
    ensures "topic" in df.columns && labels != map[] ==>
      && out.columns == WithColumn(df.columns, "topic_label")
      && |out.rows| == |df.rows|
      && forall i :: 0 <= i < |df.rows| ==>
           && "topic" in df.rows[i]
           && out.rows[i] == df.rows[i]["topic_label" := LabelCell(df.rows[i]["topic"], labels)]
  {
    if "topic" in df.columns && labels != map[] then
      assert forall i :: 0 <= i < |df.rows| ==> df.rows[i] in df.rows;
      var rows := DeriveColumn(df.rows, "topic", "topic_label", v => LabelCell(v, labels));
      var columns := WithColumn(df.columns, "topic_label");
      assert forall r :: r in rows ==> r.Keys == ColumnSet(columns);
      Frame(columns, rows)
    else df
  }

  // ----- sidebar filters ---------------------------------------------------

  /** The three multi-select choices; an empty list means no choice. */
  datatype Selection = Selection(subreddits: seq<Cell>, sentiments: seq<Cell>, topics: seq<Cell>)

  /** `df[col].isin(values)` on one row. */
  predicate IsIn(r: Row, col: string, values: seq<Cell>) {
    col in r && r[col] in values
  }

  /** The column the topic filter tests: `topic_label` when the table has
      it, `topic` otherwise. */
  function TopicColumn(columns: seq<string>): (col: string)
    ensures col == "topic_label" <==> "topic_label" in columns
    ensures col == "topic" <==> "topic_label" !in columns
  {
    if "topic_label" in columns then "topic_label" else "topic"
  }

  /** A row passes one filter: the filter is off, or the row's value is
      among the chosen ones. */
  predicate Keeps(r: Row, col: string, chosen: seq<Cell>): (b: bool)
    ensures chosen == [] ==> b
    ensures chosen != [] ==> (b <==> col in r && r[col] in chosen)
  {
    chosen == [] || IsIn(r, col, chosen)
  }

  /** A row survives the chain exactly when it passes all three filters. */
  predicate Shown(r: Row, columns: seq<string>, sel: Selection): (b: bool)
    ensures sel == Selection([], [], []) ==> b
    ensures b && sel.subreddits != [] ==> "subreddit" in r && r["subreddit"] in sel.subreddits
    ensures b && sel.sentiments != [] ==> "title_sentiment" in r && r["title_sentiment"] in sel.sentiments
    ensures b && sel.topics != [] ==> TopicColumn(columns) in r && r[TopicColumn(columns)] in sel.topics
    ensures (sel.subreddits == [] || ("subreddit" in r && r["subreddit"] in sel.subreddits))
      && (sel.sentiments == [] || ("title_sentiment" in r && r["title_sentiment"] in sel.sentiments))
      && (sel.topics == [] || (TopicColumn(columns) in r && r[TopicColumn(columns)] in sel.topics))
      ==> b
  {
    && Keeps(r, "subreddit", sel.subreddits)
    && Keeps(r, "title_sentiment", sel.sentiments)
    && Keeps(r, TopicColumn(columns), sel.topics)
  }

  /** The rows the filter chain keeps, in their original order. */
  function Selected(df: Frame, sel: Selection): (rows: seq<Row>)
    ensures IsSubsequence(rows, df.rows)
    ensures forall r :: r in rows <==> r in df.rows && Shown(r, df.columns, sel)
    ensures forall r :: multiset(rows)[r] == if Shown(r, df.columns, sel) then multiset(df.rows)[r] else 0
  {
    Filter(r => Shown(r, df.columns, sel), df.rows)
  }

  /** With nothing chosen, the whole table is shown. */
  lemma NothingSelected(df: Frame)
    ensures Selected(df, Selection([], [], [])) == df.rows
  {
    FilterAll(r => Shown(r, df.columns, Selection([], [], [])), df.rows);
  }

  /** One filter of the chain applied to `rows`: unchanged when nothing is
      chosen, otherwise the rows whose `col` value is among the chosen. */
  lemma FilterStep(rows: seq<Row>, col: string, chosen: seq<Cell>)
    ensures chosen == [] ==> Filter(r => Keeps(r, col, chosen), rows) == rows
    ensures chosen != [] ==>
      Filter(r => Keeps(r, col, chosen), rows) == Filter(r => IsIn(r, col, chosen), rows)
  {
    if chosen == [] {
      FilterAll(r => Keeps(r, col, chosen), rows);
    } else {
      FilterSame(r => Keeps(r, col, chosen), r => IsIn(r, col, chosen), rows);
    }
  }

  /** Filtering by two predicates that agree everywhere gives the same rows. */
  lemma {:induction false} FilterSame(p: Row -> bool, q: Row -> bool, rows: seq<Row>)
    requires forall r :: p(r) == q(r)
    ensures Filter(p, rows) == Filter(q, rows)
  {
    if rows != [] {
      FilterSame(p, q, rows[1..]);
    }
  }

  /** The sidebar filter chain (dashboard.py:43-50): the table is narrowed
      by each filter whose selection is not empty, one after the other.
      The result is the rows passing all three filters, in order. */
  method FilterFrame(df: Frame, sel: Selection) returns (filtered: Frame)
    requires WellFormed(df)
    ensures filtered.columns == df.columns
    ensures filtered.rows == Selected(df, sel)
    ensures WellFormed(filtered)
  {
    var p1 := r => Keeps(r, "subreddit", sel.subreddits);
    var p2 := r => Keeps(r, "title_sentiment", sel.sentiments);
    var topicCol := TopicColumn(df.columns);
    var p3 := r => Keeps(r, topicCol, sel.topics);
    var rows := df.rows;
    if sel.subreddits != [] {
      rows := Filter(r => IsIn(r, "subreddit", sel.subreddits), rows);
    }
    FilterStep(df.rows, "subreddit", sel.subreddits);
    assert rows == Filter(p1, df.rows);
    if sel.sentiments != [] {
      rows := Filter(r => IsIn(r, "title_sentiment", sel.sentiments), rows);
    }
    FilterStep(Filter(p1, df.rows), "title_sentiment", sel.sentiments);
    FilterFilter(p1, p2, r => p1(r) && p2(r), df.rows);
    assert rows == Filter(r => p1(r) && p2(r), df.rows);
    if sel.topics != [] {
      rows := Filter(r => IsIn(r, topicCol, sel.topics), rows);
    }
    FilterStep(Filter(r => p1(r) && p2(r), df.rows), topicCol, sel.topics);
    FilterFilter(r => p1(r) && p2(r), p3, r => Shown(r, df.columns, sel), df.rows);
    filtered := Frame(df.columns, rows);
  }
}

/** The hashtag co-occurrence graph of the dashboard's network tab
    (dashboard.py:218-228): subreddits are linked when titles in both
    mention a common hashtag, each edge labelled with a tag. The graph is
    a class whose edge map `add_edge` updates in place; the nested loops
    that fill it are proved against a declarative description of the
    edges, about which the co-occurrence properties are then proved. */
module CoGraph {
  import opened Text
  import opened Wrappers
  import opened Frames
  import opened Extraction

  /** An undirected edge, as the set of its end points. */
  type Edge = set<Cell>

  /** An undirected simple graph whose edges carry a label (networkx's
      `Graph` with a `label` edge attribute). Nodes only ever arrive with
      an edge, so the node set is that of the edge end points and the
      edge map is the whole state. */
  class Graph {
    var edges: map<Edge, string>

    constructor()
      ensures edges == map[]
    {
      edges := map[];
    }

    /** `G.add_edge(a, b, label=tag)`: the edge is created, or its label
        overwritten when it exists. */
    method AddEdge(a: Cell, b: Cell, tag: string)
      modifies this
      ensures edges == old(edges)[{a, b} := tag]
    {
      edges := edges[{a, b} := tag];
    }
  }

  // ----- what the loops iterate over -----------------------------------------

  /** The title of a row, when it is a string. */
  function TitleOf(r: Row): Option<string> {
    if "title" in r && r["title"].Str? then Some(r["title"].s) else None
  }

  /** The subreddit cell of a row. */
  function SubredditOf(r: Row): Cell {
    if "subreddit" in r then r["subreddit"] else Null
  }

  /** The tags `#(\w+)` finds in a row's title; none for a missing title. */
  function RowTags(r: Row): seq<string> {
    match TitleOf(r)
    case Some(t) => Hashtags(t)
    case None => []
  }

  /** `df["title"].str.findall(r"#(\w+)")`, exploded with missing values
      dropped: the tags of every title, row after row. */
  function TitleTags(rows: seq<Row>): (tags: seq<string>)
    ensures forall t :: t in tags <==> exists i :: 0 <= i < |rows| && t in RowTags(rows[i])
  {
    if rows == [] then []
    else
      var rest := TitleTags(rows[1..]);
      assert forall i :: 1 <= i < |rows| ==> rows[i] == rows[1..][i - 1];
      RowTags(rows[0]) + rest
  }

  /** The distinct tags the outer loop visits, in order of first appearance. */
  function GraphTags(rows: seq<Row>): (tags: seq<string>)
    ensures Distinct(tags)
    ensures forall t :: t in tags <==> exists i :: 0 <= i < |rows| && t in RowTags(rows[i])
  {
    Unique(TitleTags(rows))
  }

  /** `df["title"].str.contains(f"#{tag}", case=False, na=False)` on one
      row. A `#` followed by word characters holds no regular-expression
      operator, so the pattern matches as a literal, ignoring case; a
      missing title does not match. */
  predicate MentionsTag(r: Row, tag: string) {
    TitleOf(r).Some? && Contains(Lower(TitleOf(r).value), Lower("#" + tag))
  }

  /** The subreddits of the rows that mention `tag`, in row order. */
  function Mentioning(rows: seq<Row>, tag: string): (subs: seq<Cell>)
    ensures forall s :: s in subs <==>
      exists i :: 0 <= i < |rows| && MentionsTag(rows[i], tag) && SubredditOf(rows[i]) == s
  {
    if rows == [] then []
    else
      var rest := Mentioning(rows[1..], tag);
      assert forall i :: 1 <= i < |rows| ==> rows[i] == rows[1..][i - 1];
      (if MentionsTag(rows[0], tag) then [SubredditOf(rows[0])] else []) + rest
  }

  /** `subs` of the source: the distinct subreddits posting a title that
      mentions `tag`, in order of first appearance. */
  function TagSubreddits(rows: seq<Row>, tag: string): (subs: seq<Cell>)
    ensures Distinct(subs)
    ensures forall s :: s in subs <==>
      exists i :: 0 <= i < |rows| && MentionsTag(rows[i], tag) && SubredditOf(rows[i]) == s
  {
    Unique(Mentioning(rows, tag))
  }

  // ----- the edges, declaratively -------------------------------------------

  /** The edges `{subs[i], subs[j]}` with `i < j`. */
  function Pairs(subs: seq<Cell>): (es: set<Edge>)
    ensures |subs| < 2 ==> es == {}
  {
    set i, j | 0 <= i < j < |subs| :: {subs[i], subs[j]}
  }

  /** `m` with every edge of `es` added or relabelled `tag`. */
  function Relabel(m: map<Edge, string>, es: set<Edge>, tag: string): (m': map<Edge, string>)
    ensures m'.Keys == m.Keys + es
    ensures forall e :: e in es ==> m'[e] == tag
    ensures forall e :: e in m && e !in es ==> m'[e] == m[e]
  {
    map e | e in m.Keys + es :: if e in es then tag else m[e]
  }

  /** One pass of the outer loop: the pairs it links and their label. */
  datatype Round = Round(pairs: set<Edge>, tag: string)

  /** `m` after the rounds `rs`, one after the other. */
  function Overlay(m: map<Edge, string>, rs: seq<Round>): (edges: map<Edge, string>)
    ensures m.Keys <= edges.Keys
    ensures rs == [] ==> edges == m
  {
    if rs == [] then m
    else Relabel(Overlay(m, rs[..|rs| - 1]), rs[|rs| - 1].pairs, rs[|rs| - 1].tag)
  }

  /** The round of each tag: the pairs of the subreddits mentioning it. */
  function Rounds(rows: seq<Row>, tags: seq<string>): (rs: seq<Round>)
    ensures |rs| == |tags|
    ensures forall k :: 0 <= k < |tags| ==>
      rs[k] == Round(Pairs(TagSubreddits(rows, tags[k])), tags[k])
  {
    seq(|tags|, k requires 0 <= k < |tags| => Round(Pairs(TagSubreddits(rows, tags[k])), tags[k]))
  }

  /** The labelled edges of the whole graph. */
  function GraphEdges(rows: seq<Row>): (edges: map<Edge, string>)
    ensures GraphTags(rows) == [] ==> edges == map[]
  {
    Overlay(map[], Rounds(rows, GraphTags(rows)))
  }

  // ----- the loops -----------------------------------------------------------

  /** The pairs `{subs[i], subs[j']}`, `i < j' < j`, in the order the inner
      loop links them. */
  function RowPairs(subs: seq<Cell>, i: nat, j: nat): (es: seq<Edge>)
    requires j <= |subs|
    decreases j
  {
    if j <= i + 1 then [] else RowPairs(subs, i, j - 1) + [{subs[i], subs[j - 1]}]
  }

  /** The pairs the two loops link for the first `i` values of the outer
      index, in order. */
  function Triangle(subs: seq<Cell>, i: nat): (es: seq<Edge>)
    requires i <= |subs|
  {
    if i == 0 then [] else Triangle(subs, i - 1) + RowPairs(subs, i - 1, |subs|)
  }

  /** `m` after `add_edge` with label `tag` on every edge of `es`, in order. */
  function AddAll(m: map<Edge, string>, es: seq<Edge>, tag: string): (m': map<Edge, string>)
  {
    if es == [] then m else AddAll(m, es[..|es| - 1], tag)[es[|es| - 1] := tag]
  }

  lemma {:induction false} RowPairsMembers(subs: seq<Cell>, i: nat, j: nat)
    requires j <= |subs|
    ensures forall e :: e in RowPairs(subs, i, j) <==>
      exists j' :: i < j' < j && e == {subs[i], subs[j']}
    decreases j
  {
    if j > i + 1 {
      RowPairsMembers(subs, i, j - 1);
    }
  }

  lemma {:induction false} TriangleMembers(subs: seq<Cell>, i: nat)
    requires i <= |subs|
    ensures forall e :: e in Triangle(subs, i) <==>
      exists i', j :: 0 <= i' < i && i' < j < |subs| && e == {subs[i'], subs[j]}
  {
    if i > 0 {
      TriangleMembers(subs, i - 1);
      RowPairsMembers(subs, i - 1, |subs|);
    }
  }

  /** Every pair `i < j` of the list, and nothing else, is linked. */
  lemma TriangleIsPairs(subs: seq<Cell>)
    ensures forall e :: e in Triangle(subs, |subs|) <==> e in Pairs(subs)
  {
    TriangleMembers(subs, |subs|);
  }

  /** The edges of a list, as a set. */
  function EdgeSet(es: seq<Edge>): (s: set<Edge>)
    ensures forall e :: e in s <==> e in es
  {
    if es == [] then {} else EdgeSet(es[..|es| - 1]) + {es[|es| - 1]}
  }

  lemma RelabelOne(m: map<Edge, string>, es: set<Edge>, e: Edge, tag: string)
    ensures Relabel(m, es, tag)[e := tag] == Relabel(m, es + {e}, tag)
  {
  }

  /** Adding edges one after another relabels every one of them: the order
      does not matter because every edge gets the same label. */
  lemma {:induction false} AddAllRelabels(m: map<Edge, string>, es: seq<Edge>, tag: string)
    ensures AddAll(m, es, tag) == Relabel(m, EdgeSet(es), tag)
  {
    if es != [] {
      var init := es[..|es| - 1];
      AddAllRelabels(m, init, tag);
      RelabelOne(m, EdgeSet(init), es[|es| - 1], tag);
    }
  }

  lemma {:induction false} AddAllAppend(m: map<Edge, string>, es: seq<Edge>, fs: seq<Edge>, tag: string)
    ensures AddAll(m, es + fs, tag) == AddAll(AddAll(m, es, tag), fs, tag)
    decreases |fs|
  {
    if fs == [] {
      assert es + fs == es;
    } else {
      var init := fs[..|fs| - 1];
      assert (es + fs)[..|es + fs| - 1] == es + init;
      assert (es + fs)[|es + fs| - 1] == fs[|fs| - 1];
      AddAllAppend(m, es, init, tag);
    }
  }

  /** The two nested index loops for one tag (dashboard.py:226-228): every
      pair `i < j` of the list is linked with the tag. */
  method LinkAll(g: Graph, subs: seq<Cell>, tag: string)
    modifies g
    ensures g.edges == Relabel(old(g.edges), Pairs(subs), tag)
  {
    ghost var start := g.edges;
    for i := 0 to |subs|
      invariant g.edges == AddAll(start, Triangle(subs, i), tag)
    {
      for j := i + 1 to |subs|
        invariant g.edges == AddAll(AddAll(start, Triangle(subs, i), tag), RowPairs(subs, i, j), tag)
      {
        g.AddEdge(subs[i], subs[j], tag);
      }
      AddAllAppend(start, Triangle(subs, i), RowPairs(subs, i, |subs|), tag);
    }
    AddAllRelabels(start, Triangle(subs, |subs|), tag);
    TriangleIsPairs(subs);
    assert EdgeSet(Triangle(subs, |subs|)) == Pairs(subs);
  }

  /** The graph-building loop of dashboard.py:218-228. For each distinct
      title tag it collects the distinct subreddits mentioning the tag and
      links every pair `i < j` of them with that tag as label. */
  method BuildGraph(rows: seq<Row>) returns (g: Graph)
    ensures fresh(g)
    ensures g.edges == GraphEdges(rows)
  {
    g := new Graph();
    var tags := GraphTags(rows);
    ghost var rs := Rounds(rows, tags);
    for k := 0 to |tags|
      invariant g.edges == Overlay(map[], rs[..k])
    {
      var subs := TagSubreddits(rows, tags[k]);
      LinkAll(g, subs, tags[k]);
      assert rs[..k + 1][..k] == rs[..k];
    }
    assert rs[..|tags|] == rs;
  }

  // ----- what the graph says -------------------------------------------------

  /** Every tag the outer loop visits is mentioned by at least one row (the
      one it was found in), so its subreddit list is never empty. */
  lemma TagIsMentioned(rows: seq<Row>, tag: string)
    requires tag in GraphTags(rows)
    ensures TagSubreddits(rows, tag) != []
  {
    var i :| 0 <= i < |rows| && tag in RowTags(rows[i]);
    var title := TitleOf(rows[i]).value;
    HashtagsOccur(title);
    ContainsLower(title, "#" + tag);
    assert MentionsTag(rows[i], tag);
    assert SubredditOf(rows[i]) in TagSubreddits(rows, tag);
  }

  /** The tag test is a case-insensitive substring search: a title that
      mentions `#` + `tag` + more word characters also mentions `tag`
      (a title with `#aipolicy` counts for the tag `ai`). */
  lemma MentionsLongerTag(r: Row, tag: string, more: string)
    requires MentionsTag(r, tag + more)
    ensures MentionsTag(r, tag)
  {
    assert "#" + (tag + more) == ("#" + tag) + more;
    LowerAppend("#" + tag, more);
    ContainsPrefix(Lower(TitleOf(r).value), Lower("#" + tag), Lower(more));
  }

  /** Case does not matter in the tag test. */
  lemma MentionsIgnoresCase(r: Row, tag: string)
    ensures MentionsTag(r, Upper(tag)) <==> MentionsTag(r, tag)
  {
    LowerAppend("#", Upper(tag));
    LowerAppend("#", tag);
    LowerOfUpper(tag);
  }

  /** Two subreddits are a pair of a duplicate-free list exactly when both
      are on it and they differ. */
  lemma PairsOfDistinct(subs: seq<Cell>, a: Cell, b: Cell)
    requires Distinct(subs)
    ensures {a, b} in Pairs(subs) <==> a != b && a in subs && b in subs
  {
    if {a, b} in Pairs(subs) {
      var i, j :| 0 <= i < j < |subs| && {a, b} == {subs[i], subs[j]};
      assert subs[i] in {a, b} && subs[j] in {a, b};
    }
    if a != b && a in subs && b in subs {
      var i :| 0 <= i < |subs| && subs[i] == a;
      var j :| 0 <= j < |subs| && subs[j] == b;
      if i < j {
        assert {a, b} == {subs[i], subs[j]};
      } else {
        assert {a, b} == {subs[j], subs[i]};
      }
    }
  }

  /** A pair of a duplicate-free list joins two different subreddits. */
  lemma PairIsProper(subs: seq<Cell>, e: Edge)
    requires Distinct(subs) && e in Pairs(subs)
    ensures |e| == 2
  {
    var i, j :| 0 <= i < j < |subs| && e == {subs[i], subs[j]};
    assert e == {subs[i]} + {subs[j]};
  }

  /** The edges after some rounds are the earlier edges and the pairs of
      those rounds. */
  lemma {:induction false} OverlayKeys(m: map<Edge, string>, rs: seq<Round>, e: Edge)
    ensures e in Overlay(m, rs) <==> e in m || exists k :: 0 <= k < |rs| && e in rs[k].pairs
  {
    if rs != [] {
      var init := rs[..|rs| - 1];
      OverlayKeys(m, init, e);
      assert forall k :: 0 <= k < |init| ==> init[k] == rs[k];
    }
  }

  /** An edge some round links is labelled by the last round linking it:
      `add_edge` overwrites the label of an edge that exists. */
  lemma {:induction false} OverlayLabel(m: map<Edge, string>, rs: seq<Round>, e: Edge, k: nat)
    requires k < |rs| && e in rs[k].pairs
    ensures e in Overlay(m, rs)
    ensures exists k' ::
              && k <= k' < |rs| && e in rs[k'].pairs
              && Overlay(m, rs)[e] == rs[k'].tag
              && forall k'' :: k' < k'' < |rs| ==> e !in rs[k''].pairs
  {
    var last := |rs| - 1;
    var init := rs[..last];
    if e !in rs[last].pairs {
      assert init[k] == rs[k];
      OverlayLabel(m, init, e, k);
      var k' :| k <= k' < |init| && e in init[k'].pairs
        && Overlay(m, init)[e] == init[k'].tag
        && forall k'' :: k' < k'' < |init| ==> e !in init[k''].pairs;
      assert init[k'] == rs[k'];
      forall k'' | k' < k'' < |rs| ensures e !in rs[k''].pairs {
        if k'' < last {
          assert init[k''] == rs[k''];
        }
      }
    } else {
      assert Overlay(m, rs)[e] == rs[last].tag;
    }
  }

  /** The edges of the graph are the pairs of its tags. */
  lemma GraphEdgeKeys(rows: seq<Row>, e: Edge)
    ensures e in GraphEdges(rows) <==>
      exists t :: t in GraphTags(rows) && e in Pairs(TagSubreddits(rows, t))
  {
    var tags := GraphTags(rows);
    var rs := Rounds(rows, tags);
    OverlayKeys(map[], rs, e);
    if e in GraphEdges(rows) {
      var k :| 0 <= k < |rs| && e in rs[k].pairs;
      assert tags[k] in tags;
    }
    if exists t :: t in tags && e in Pairs(TagSubreddits(rows, t)) {
      var t :| t in tags && e in Pairs(TagSubreddits(rows, t));
      var k :| 0 <= k < |tags| && tags[k] == t;
      assert e in rs[k].pairs;
    }
  }

  /** No subreddit is linked to itself: every edge has two end points. */
  lemma NoSelfLoops(rows: seq<Row>, e: Edge)
    requires e in GraphEdges(rows)
    ensures |e| == 2
  {
    GraphEdgeKeys(rows, e);
    var t :| t in GraphTags(rows) && e in Pairs(TagSubreddits(rows, t));
    PairIsProper(TagSubreddits(rows, t), e);
  }

  /** Two subreddits are linked exactly when they differ and some title tag
      is mentioned by a title in each of them. */
  lemma LinkedIffSharedTag(rows: seq<Row>, a: Cell, b: Cell)
    ensures {a, b} in GraphEdges(rows) <==>
      && a != b
      && exists t ::
           t in GraphTags(rows) && a in TagSubreddits(rows, t) && b in TagSubreddits(rows, t)
  {
    GraphEdgeKeys(rows, {a, b});
    if {a, b} in GraphEdges(rows) {
      var t :| t in GraphTags(rows) && {a, b} in Pairs(TagSubreddits(rows, t));
      PairsOfDistinct(TagSubreddits(rows, t), a, b);
    }
    if a != b && exists t :: t in GraphTags(rows) && a in TagSubreddits(rows, t) && b in TagSubreddits(rows, t) {
      var t :| t in GraphTags(rows) && a in TagSubreddits(rows, t) && b in TagSubreddits(rows, t);
      PairsOfDistinct(TagSubreddits(rows, t), a, b);
    }
  }

  /** An edge's label is a tag both its subreddits mention: of the tags
      linking them, the last in order of first appearance. */
  lemma EdgeLabel(rows: seq<Row>, e: Edge)
    requires e in GraphEdges(rows)
    ensures var tags := GraphTags(rows);
      exists k ::
        && 0 <= k < |tags| && GraphEdges(rows)[e] == tags[k]
        && e in Pairs(TagSubreddits(rows, tags[k]))
        && forall k' :: k < k' < |tags| ==> e !in Pairs(TagSubreddits(rows, tags[k']))
  {
    var tags := GraphTags(rows);
    var rs := Rounds(rows, tags);
    OverlayKeys(map[], rs, e);
    var k0 :| 0 <= k0 < |rs| && e in rs[k0].pairs;
    OverlayLabel(map[], rs, e, k0);
  }

  /** The nodes of a graph: the end points of its edges. */
  function Nodes(edges: map<Edge, string>): set<Cell> {
    set e, a | e in edges && a in e :: a
  }

  /** The other end of a pair edge. */
  lemma PairPartner(subs: seq<Cell>, e: Edge, a: Cell) returns (b: Cell)
    requires Distinct(subs) && e in Pairs(subs) && a in e
    ensures a in subs && b in subs && a != b && e == {a, b}
  {
    var i, j :| 0 <= i < j < |subs| && e == {subs[i], subs[j]};
    b := if a == subs[i] then subs[j] else subs[i];
    assert subs[i] != subs[j];
  }

  lemma EndIsNode(edges: map<Edge, string>, e: Edge, a: Cell)
    requires e in edges && a in e
    ensures a in Nodes(edges)
  {
  }

  /** A node has a partner it shares a tag with. */
  lemma NodePartner(rows: seq<Row>, a: Cell) returns (t: string, b: Cell)
    requires a in Nodes(GraphEdges(rows))
    ensures t in GraphTags(rows) && a in TagSubreddits(rows, t) && b in TagSubreddits(rows, t) && a != b
  {
    var e :| e in GraphEdges(rows) && a in e;
    GraphEdgeKeys(rows, e);
    t :| t in GraphTags(rows) && e in Pairs(TagSubreddits(rows, t));
    b := PairPartner(TagSubreddits(rows, t), e, a);
  }

  /** A subreddit is in the graph exactly when it shares a tag with some
      other subreddit: one that shares none gets neither node nor edge. */
  lemma NodeIffSharedTag(rows: seq<Row>, a: Cell)
    ensures a in Nodes(GraphEdges(rows)) <==>
      exists t, b :: t in GraphTags(rows) && a in TagSubreddits(rows, t)
        && b in TagSubreddits(rows, t) && a != b
  {
    if a in Nodes(GraphEdges(rows)) {
      var t, b := NodePartner(rows, a);
    }
    if exists t, b :: t in GraphTags(rows) && a in TagSubreddits(rows, t)
        && b in TagSubreddits(rows, t) && a != b {
      var t, b :| t in GraphTags(rows) && a in TagSubreddits(rows, t)
        && b in TagSubreddits(rows, t) && a != b;
      LinkedIffSharedTag(rows, a, b);
      EndIsNode(GraphEdges(rows), {a, b}, a);
    }
  }
}

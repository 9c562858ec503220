/**
 * `scripts/core/handlers/hierarchy_handler.py`: every row of the Hierarchy
 * sheet names a node by its `>`-separated path and lists parameter names.
 * The parameters are searched by name (first hit each); the node updated is
 * the one whose full name is the longest prefix of the path that the
 * platform knows, the last such node winning; its tags are extended with the
 * parameters it does not carry yet, and the node is saved.
 *
 * The handler's buffer may start as `None`: conversion replaces it by ""
 * once the sheet is read, and before that an append to it fails. The tag
 * list the save extends is the node's own list when the node's `info` or
 * `settings` carries one, so a later row reaching the same node sees the
 * tags added before; the model keeps the fetched nodes as state for that.
 */
module Hierarchy {
  import opened Wrappers
  import opened Text
  import opened Sheet
  import opened Metadata
  import opened Remote

  /** `HierarchyConstants.hierarchy_meta_data`. */
  const HierarchyLabels: map<string, string> := map["hierarchy" := "name", "parameter name" := "tags"]

  const HierarchyPolicy := Policy(
    HierarchyLabels, 0,
    [Required("name", NaNOrBlank, Numbered("Hierarchy is missing in row number ")),
     Required("tags", NaNOrBlank, Numbered("Hierarchy is missing in row number "))],
    true, true)

  /** A tag of a node: `{"value": tag_id, "label": tag_name}`. */
  datatype Tag = Tag(value: string, caption: string)

  /** The first row of a parameter search. */
  datatype ParameterRow = ParameterRow(tagId: string, tagName: string)

  /**
   * A node of the fetched hierarchy. `tags` is the tag list its `info` or
   * `settings` carries (the later one winning), `None` when neither has one.
   */
  datatype Node = Node(fullName: string, nodeType: string, nodeId: string, name: string, parentId: string, desc: string,
                       tags: Option<seq<Tag>>)

  /** The fields of `hierarchy_save_payload` a save fills in (its single `data` item collapsed in). */
  datatype HierarchyPayload = HierarchyPayload(nodeType: string, nodeId: string, nodeName: string, parentId: string,
                                               description: string, tags: seq<Tag>)

  const ExtractPrefix := "Error while extracting hierarchy data: "
  const ConvertPrefix := "Error while converting unit metadata to dict: "
  const UpdatePrefix := "Error while updating the hierarchy data: "
  const UpdatedMessage := "Updated Hierarchy Category Information "
  const Refused := "Failed to fetch hierarchy data\n"

  function FailedFetch(status: nat, text: string): string {
    "Failed to fetch hierarchy data. " + StatusReport(status, text) + "\n"
  }

  function FailedParameterFetch(status: nat, text: string): string {
    "Failed to fetch parameter data. " + StatusReport(status, text) + "\n"
  }

  // ------------------------------------------------------------ tags

  function Values(tags: seq<Tag>): (vs: seq<string>)
    ensures |vs| == |tags| && forall k :: 0 <= k < |tags| ==> vs[k] == tags[k].value
  {
    seq(|tags|, k requires 0 <= k < |tags| => tags[k].value)
  }

  lemma ValuesAppend(a: seq<Tag>, b: seq<Tag>)
    ensures Values(a + b) == Values(a) + Values(b)
  {
  }

  predicate Distinct(xs: seq<string>) {
    forall i, j :: 0 <= i < j < |xs| ==> xs[i] != xs[j]
  }

  /** The parameter at i carries a tag id that is neither on the node nor carried by an earlier parameter. */
  predicate FirstFresh(existing: seq<string>, params: seq<ParameterRow>, i: nat)
    requires i < |params|
  {
    params[i].tagId !in existing && forall j :: 0 <= j < i ==> params[j].tagId != params[i].tagId
  }

  function TagOf(p: ParameterRow): Tag {
    Tag(p.tagId, p.tagName)
  }

  /** The tags update_tags adds, in parameter order. */
  function NewTags(existing: seq<string>, params: seq<ParameterRow>): seq<Tag> {
    if |params| == 0 then []
    else
      var n := |params| - 1;
      NewTags(existing, params[..n]) + (if FirstFresh(existing, params, n) then [TagOf(params[n])] else [])
  }

  lemma NewTagsStep(existing: seq<string>, params: seq<ParameterRow>, i: nat)
    requires i < |params|
    ensures NewTags(existing, params[..i + 1])
      == NewTags(existing, params[..i]) + (if FirstFresh(existing, params, i) then [TagOf(params[i])] else [])
  {
    var q := params[..i + 1];
    assert q[..i] == params[..i];
    assert FirstFresh(existing, q, i) == FirstFresh(existing, params, i);
  }

  /** A value is added exactly when it is not on the node and some parameter carries it. */
  lemma {:induction false} NewTagsValues(existing: seq<string>, params: seq<ParameterRow>)
    ensures forall x :: x in Values(NewTags(existing, params)) <==>
      x !in existing && exists j :: 0 <= j < |params| && params[j].tagId == x
  {
    if |params| > 0 {
      var n := |params| - 1;
      var init := params[..n];
      NewTagsValues(existing, init);
      var added := if FirstFresh(existing, params, n) then [TagOf(params[n])] else [];
      ValuesAppend(NewTags(existing, init), added);
      assert Values(NewTags(existing, params)) == Values(NewTags(existing, init)) + Values(added);
      forall x | x in Values(NewTags(existing, params))
        ensures x !in existing && exists j :: 0 <= j < |params| && params[j].tagId == x
      {
        if x in Values(NewTags(existing, init)) {
          var j :| 0 <= j < |init| && init[j].tagId == x;
          assert params[j].tagId == x;
        } else {
          assert x in Values(added);
          assert params[n].tagId == x;
        }
      }
      forall x | x !in existing && exists j :: 0 <= j < |params| && params[j].tagId == x
        ensures x in Values(NewTags(existing, params))
      {
        var j :| 0 <= j < |params| && params[j].tagId == x;
        if j < n {
          assert init[j].tagId == x;
        } else if FirstFresh(existing, params, n) {
          assert Values(added) == [x];
        } else {
          var j' :| 0 <= j' < n && params[j'].tagId == params[n].tagId;
          assert init[j'].tagId == x;
        }
      }
    }
  }

  /** No value is added twice. */
  lemma {:induction false} NewTagsDistinct(existing: seq<string>, params: seq<ParameterRow>)
    ensures Distinct(Values(NewTags(existing, params)))
  {
    if |params| > 0 {
      var n := |params| - 1;
      var init := params[..n];
      NewTagsDistinct(existing, init);
      if FirstFresh(existing, params, n) {
        NewTagsValues(existing, init);
        ValuesAppend(NewTags(existing, init), [TagOf(params[n])]);
        assert forall j :: 0 <= j < n ==> init[j] == params[j];
        assert params[n].tagId !in Values(NewTags(existing, init));
      }
    }
  }

  /** Every added tag is `{"value": tag_id, "label": tag_name}` of the first parameter carrying that id. */
  lemma {:induction false} NewTagsAreParameters(existing: seq<string>, params: seq<ParameterRow>)
    ensures forall t :: t in NewTags(existing, params) ==>
      exists j :: 0 <= j < |params| && FirstFresh(existing, params, j) && t == TagOf(params[j])
  {
    if |params| > 0 {
      var n := |params| - 1;
      var init := params[..n];
      NewTagsAreParameters(existing, init);
      var added := if FirstFresh(existing, params, n) then [TagOf(params[n])] else [];
      assert NewTags(existing, params) == NewTags(existing, init) + added;
      forall t | t in NewTags(existing, params)
        ensures exists j :: 0 <= j < |params| && FirstFresh(existing, params, j) && t == TagOf(params[j])
      {
        if t in NewTags(existing, init) {
          var j :| 0 <= j < |init| && FirstFresh(existing, init, j) && t == TagOf(init[j]);
          FirstFreshPrefix(existing, params, n, j);
        } else {
          assert t in added;
        }
      }
    }
  }

  /** Whether a parameter is the first to carry a fresh id does not depend on the parameters after it. */
  lemma FirstFreshPrefix(existing: seq<string>, params: seq<ParameterRow>, n: nat, j: nat)
    requires j < n <= |params|
    ensures params[..n][j] == params[j]
    ensures FirstFresh(existing, params[..n], j) == FirstFresh(existing, params, j)
  {
    assert forall i :: 0 <= i <= j ==> params[..n][i] == params[i];
  }

  lemma DistinctAppend(a: seq<string>, b: seq<string>)
    requires Distinct(a) && Distinct(b) && forall x :: x in b ==> x !in a
    ensures Distinct(a + b)
  {
    forall i, j | 0 <= i < j < |a + b|
      ensures (a + b)[i] != (a + b)[j]
    {
      if i < |a| && j >= |a| {
        assert (a + b)[j] == b[j - |a|];
        assert (a + b)[j] in b;
      }
    }
  }

  /** Extending a tag list with its new tags keeps its values duplicate-free. */
  lemma ExtendKeepsDistinct(tags: seq<Tag>, params: seq<ParameterRow>)
    requires Distinct(Values(tags))
    ensures Distinct(Values(tags + NewTags(Values(tags), params)))
  {
    var added := NewTags(Values(tags), params);
    NewTagsValues(Values(tags), params);
    NewTagsDistinct(Values(tags), params);
    ValuesAppend(tags, added);
    DistinctAppend(Values(tags), Values(added));
  }

  /**
   * update_tags: the values on the node are gathered in a set; each
   * parameter whose id is not in it yet adds its tag, and its id to the set.
   */
  method UpdateTags(existing: seq<Tag>, params: seq<ParameterRow>) returns (tagsData: seq<Tag>)
    ensures tagsData == NewTags(Values(existing), params)
  {
    var seen: set<string> := set t | t in existing :: t.value;
    tagsData := [];
    for i := 0 to |params|
      invariant tagsData == NewTags(Values(existing), params[..i])
      invariant forall x :: x in seen <==> x in Values(existing) || x in Values(tagsData)
    {
      NewTagsStep(Values(existing), params, i);
      NewTagsValues(Values(existing), params[..i]);
      var value := params[i].tagId;
      assert value in seen <==> !FirstFresh(Values(existing), params, i) by {
        assert forall j :: 0 <= j < i ==> params[..i][j] == params[j];
      }
      if value !in seen {
        ValuesAppend(tagsData, [Tag(value, params[i].tagName)]);
        assert Values(tagsData + [Tag(value, params[i].tagName)]) == Values(tagsData) + [value];
        tagsData := tagsData + [Tag(value, params[i].tagName)];
        seen := seen + {value};
      }
    }
    assert params[..|params|] == params;
  }

  // ------------------------------------------------------------ the node of a path

  /** `">".join(parts[:i + 1])`. */
  function PathPrefix(parts: seq<string>, i: nat): string
    requires i < |parts|
  {
    Join(parts[..i + 1], ">")
  }

  /** The last node whose full name is `full`. */
  function LastMatch(nodes: seq<Node>, full: string): (r: Option<nat>)
    ensures r.Some? ==> r.value < |nodes| && nodes[r.value].fullName == full
    ensures r.Some? ==> forall k :: r.value < k < |nodes| ==> nodes[k].fullName != full
    ensures r.None? ==> forall k :: 0 <= k < |nodes| ==> nodes[k].fullName != full
  {
    if |nodes| == 0 then None
    else if nodes[|nodes| - 1].fullName == full then Some(|nodes| - 1)
    else LastMatch(nodes[..|nodes| - 1], full)
  }

  /** `child_data` after the first n prefixes of the path: each prefix with a match overrides it. */
  function ChildIndex(parts: seq<string>, nodes: seq<Node>, n: nat): (r: Option<nat>)
    requires n <= |parts|
    ensures r.Some? ==> r.value < |nodes|
  {
    if n == 0 then None
    else
      match LastMatch(nodes, PathPrefix(parts, n - 1))
      case Some(k) => Some(k)
      case None => ChildIndex(parts, nodes, n - 1)
  }

  /** No node carries any of the first n prefixes of the path. */
  ghost predicate NoPrefixCarried(parts: seq<string>, nodes: seq<Node>, n: nat)
    requires n <= |parts|
  {
    forall i, k :: 0 <= i < n && 0 <= k < |nodes| ==> nodes[k].fullName != PathPrefix(parts, i)
  }

  /**
   * Node c carries prefix i, the longest of the first n prefixes any node
   * carries, and no later node carries that prefix.
   */
  ghost predicate DeepestAt(parts: seq<string>, nodes: seq<Node>, n: nat, c: nat, i: nat)
    requires n <= |parts|
  {
    && i < n && c < |nodes| && nodes[c].fullName == PathPrefix(parts, i)
    && (forall k :: c < k < |nodes| ==> nodes[k].fullName != PathPrefix(parts, i))
    && (forall i', k :: i < i' < n && 0 <= k < |nodes| ==> nodes[k].fullName != PathPrefix(parts, i'))
  }

  /**
   * The node chosen for a path carries the longest prefix of the path that
   * any node carries, and no later node carries that prefix; no node is
   * chosen exactly when no prefix is carried by any node.
   */
  lemma {:induction false} DeepestPrefix(parts: seq<string>, nodes: seq<Node>, n: nat)
    requires n <= |parts|
    ensures var c := ChildIndex(parts, nodes, n);
      && (c.None? <==> NoPrefixCarried(parts, nodes, n))
      && (c.Some? ==> exists i :: DeepestAt(parts, nodes, n, c.value, i))
  {
    if n > 0 {
      if LastMatch(nodes, PathPrefix(parts, n - 1)).Some? {
        DeepestPrefixHit(parts, nodes, n);
      } else {
        DeepestPrefix(parts, nodes, n - 1);
        DeepestPrefixMiss(parts, nodes, n - 1, n);
      }
    }
  }

  /** The last prefix is carried: the last node carrying it is chosen. */
  lemma DeepestPrefixHit(parts: seq<string>, nodes: seq<Node>, n: nat)
    requires 0 < n <= |parts| && LastMatch(nodes, PathPrefix(parts, n - 1)).Some?
    ensures ChildIndex(parts, nodes, n).Some? && !NoPrefixCarried(parts, nodes, n)
    ensures DeepestAt(parts, nodes, n, ChildIndex(parts, nodes, n).value, n - 1)
  {
    var m := LastMatch(nodes, PathPrefix(parts, n - 1)).value;
    assert nodes[m].fullName == PathPrefix(parts, n - 1);
  }

  /** The last prefix is not carried: the choice among the shorter ones stands. */
  lemma DeepestPrefixMiss(parts: seq<string>, nodes: seq<Node>, m: nat, n: nat)
    requires n == m + 1 <= |parts| && LastMatch(nodes, PathPrefix(parts, m)).None?
    requires var c := ChildIndex(parts, nodes, m);
      && (c.None? <==> NoPrefixCarried(parts, nodes, m))
      && (c.Some? ==> exists i :: DeepestAt(parts, nodes, m, c.value, i))
    ensures var c := ChildIndex(parts, nodes, n);
      && (c.None? <==> NoPrefixCarried(parts, nodes, n))
      && (c.Some? ==> exists i :: DeepestAt(parts, nodes, n, c.value, i))
  {
    var c := ChildIndex(parts, nodes, n);
    assert c == ChildIndex(parts, nodes, m);
    if c.Some? {
      var i :| DeepestAt(parts, nodes, m, c.value, i);
      assert DeepestAt(parts, nodes, n, c.value, i);
    }
  }

  /** The prefix loops of hierarchy_automation. */
  method DeepestMatch(parts: seq<string>, nodes: seq<Node>) returns (child: Option<nat>)
    ensures child == ChildIndex(parts, nodes, |parts|)
  {
    child := None;
    for index := 0 to |parts|
      invariant child == ChildIndex(parts, nodes, index)
    {
      var full := Join(parts[..index + 1], ">");
      ghost var before := child;
      for k := 0 to |nodes|
        invariant child == (match LastMatch(nodes[..k], full) case Some(j) => Some(j) case None => before)
      {
        assert nodes[..k + 1][..k] == nodes[..k];
        if full == nodes[k].fullName {
          child := Some(k);
        }
      }
      assert nodes[..|nodes|] == nodes;
    }
  }

  // ------------------------------------------------------------ saving a node

  /** The tag list the save extends: the node's own, or the template's empty one. */
  function BaseTags(node: Node): seq<Tag> {
    if node.tags.Some? then node.tags.value else []
  }

  /** The payload update_hierarchy saves for a node and the parameters found. */
  function Payload(node: Node, params: seq<ParameterRow>): HierarchyPayload {
    var base := BaseTags(node);
    HierarchyPayload(node.nodeType, node.nodeId, node.name, node.parentId, node.desc, base + NewTags(Values(base), params))
  }

  /** The node after the save extended its own tag list in place. */
  function Extended(node: Node, params: seq<ParameterRow>): Node {
    if node.tags.Some? then node.(tags := Some(Payload(node, params).tags)) else node
  }

  /** A node's tag values are duplicate-free. */
  predicate TagsDistinct(node: Node) {
    node.tags.Some? ==> Distinct(Values(node.tags.value))
  }

  /**
   * The saved tags keep every tag the node had, in front, and add only
   * values it did not carry, each once; when the node's values were
   * duplicate-free, the saved ones and the node's extended ones are too.
   */
  lemma PayloadTags(node: Node, params: seq<ParameterRow>)
    ensures var p := Payload(node, params);
      && BaseTags(node) <= p.tags
      && (forall x :: x in Values(p.tags[|BaseTags(node)|..]) ==> x !in Values(BaseTags(node)))
      && (TagsDistinct(node) ==> Distinct(Values(p.tags)) && TagsDistinct(Extended(node, params)))
  {
    var base := BaseTags(node);
    NewTagsValues(Values(base), params);
    assert Payload(node, params).tags[|base|..] == NewTags(Values(base), params);
    if TagsDistinct(node) {
      ExtendKeepsDistinct(base, params);
    }
  }

  // ------------------------------------------------------------ the automation loop

  /** The buffer, the saves made so far, and the fetched nodes as the saves left them. */
  datatype HState = HState(posts: seq<HierarchyPayload>, buf: string, nodes: seq<Node>)

  /** A step and whether it raised (the exception carries the buffer). */
  datatype HStep = HStep(state: HState, failed: bool)

  /** The tag names as search filters. */
  function Filters(tags: seq<string>): (q: seq<Result<string, Fault>>)
    ensures |q| == |tags| && forall k :: 0 <= k < |tags| ==> q[k] == Success(tags[k])
  {
    seq(|tags|, k requires 0 <= k < |tags| => Success(tags[k]))
  }

  /** Saving the node a path leads to, with the parameters found; a path that leads nowhere saves nothing. */
  function SaveStep(s: HState, name: string, hits: seq<ParameterRow>, save: HierarchyPayload -> nat): HStep {
    var parts := Split(name, '>');
    match ChildIndex(parts, s.nodes, |parts|)
    case None => HStep(s, false)
    case Some(k) =>
      var p := Payload(s.nodes[k], hits);
      var nodes := s.nodes[k := Extended(s.nodes[k], hits)];
      if save(p) != OK then
        var b := s.buf + Refused;
        HStep(HState(s.posts + [p], b + UpdatePrefix + HttpErrorText(save(p), b) + "\n", nodes), true)
      else HStep(HState(s.posts + [p], s.buf + UpdatedMessage, nodes), false)
  }

  /** The parameter search for a row's tags: one query per tag name. */
  function TagSearch(item: Record, search: string -> Response<ParameterRow>): Searched<ParameterRow>
    requires "tags" in item && item["tags"].Some?
  {
    var queries := Filters(TagNames(item["tags"].value));
    SearchRun(queries, search, |queries|)
  }

  /** One sheet row of hierarchy_automation. */
  function ItemStep(s: HState, item: Record, search: string -> Response<ParameterRow>, save: HierarchyPayload -> nat): HStep {
    if "tags" !in item || item["tags"].None? then HStep(s, false)
    else
      var found := TagSearch(item, search);
      match found.stop
      case SearchRejected(status, text) => HStep(s.(buf := s.buf + FailedParameterFetch(status, text)), true)
      case SearchFault(_) => HStep(s, true)
      case SearchDone =>
        if "name" !in item || item["name"].None? then HStep(s, true)
        else SaveStep(s, item["name"].value, found.hits, save)
  }

  /** A loop over the first n sheet rows that applies `step` to each, stopping at the first that raises. */
  function Loop(s: HState, items: seq<Record>, step: (HState, Record) -> HStep, n: nat): HStep
    requires n <= |items|
  {
    if n == 0 then HStep(s, false)
    else
      var prev := Loop(s, items, step, n - 1);
      if prev.failed then prev else step(prev.state, items[n - 1])
  }

  /** Once a row has raised, the loop stays where it stopped. */
  lemma {:induction false} LoopStaysFailed(s: HState, items: seq<Record>, step: (HState, Record) -> HStep, m: nat, n: nat)
    requires m <= n <= |items| && Loop(s, items, step, m).failed
    ensures Loop(s, items, step, n) == Loop(s, items, step, m)
    decreases n
  {
    if n > m {
      LoopStaysFailed(s, items, step, m, n - 1);
    }
  }

  function Processing(search: string -> Response<ParameterRow>, save: HierarchyPayload -> nat): (HState, Record) -> HStep {
    (st: HState, item: Record) => ItemStep(st, item, search, save)
  }

  /** The loop of hierarchy_automation over the first n sheet rows. */
  function HierarchyRun(s: HState, items: seq<Record>, search: string -> Response<ParameterRow>, save: HierarchyPayload -> nat, n: nat): HStep
    requires n <= |items|
  {
    Loop(s, items, Processing(search, save), n)
  }

  lemma HierarchyRunStaysFailed(s: HState, items: seq<Record>, search: string -> Response<ParameterRow>,
                                save: HierarchyPayload -> nat, m: nat, n: nat)
    requires m <= n <= |items| && HierarchyRun(s, items, search, save, m).failed
    ensures HierarchyRun(s, items, search, save, n) == HierarchyRun(s, items, search, save, m)
  {
    LoopStaysFailed(s, items, Processing(search, save), m, n);
  }

  lemma FailedStep(s: HState, items: seq<Record>, search: string -> Response<ParameterRow>, save: HierarchyPayload -> nat, n: nat)
    requires 0 < n <= |items| && HierarchyRun(s, items, search, save, n - 1).failed
    ensures HierarchyRun(s, items, search, save, n) == HierarchyRun(s, items, search, save, n - 1)
  {
  }

  /** A loop that has not raised goes on with the next row. */
  lemma HierarchyRunNext(s: HState, items: seq<Record>, search: string -> Response<ParameterRow>, save: HierarchyPayload -> nat, n: nat)
    requires 0 < n <= |items| && !HierarchyRun(s, items, search, save, n - 1).failed
    ensures HierarchyRun(s, items, search, save, n) == ItemStep(HierarchyRun(s, items, search, save, n - 1).state, items[n - 1], search, save)
  {
  }

  /** The run over one more row, from the state the run has reached. */
  lemma HierarchyRunFrom(s: HState, items: seq<Record>, search: string -> Response<ParameterRow>, save: HierarchyPayload -> nat,
                         i: nat, prev: HState)
    requires i < |items| && HierarchyRun(s, items, search, save, i) == HStep(prev, false)
    ensures HierarchyRun(s, items, search, save, i + 1) == ItemStep(prev, items[i], search, save)
  {
    HierarchyRunNext(s, items, search, save, i + 1);
  }

  /** The nodes changed only by extending their own tag lists. */
  ghost predicate Grown(before: seq<Node>, after: seq<Node>) {
    |before| == |after|
    && forall k :: 0 <= k < |before| ==>
         after[k].(tags := before[k].tags) == before[k]
         && (before[k].tags.Some? <==> after[k].tags.Some?)
         && (before[k].tags.Some? ==> before[k].tags.value <= after[k].tags.value)
  }

  lemma GrownTransitive(a: seq<Node>, b: seq<Node>, c: seq<Node>)
    requires Grown(a, b) && Grown(b, c)
    ensures Grown(a, c)
  {
    forall k | 0 <= k < |a|
      ensures c[k].(tags := a[k].tags) == a[k]
    {
      assert c[k].(tags := b[k].tags) == b[k];
    }
  }

  ghost predicate AllTagsDistinct(nodes: seq<Node>) {
    forall k :: 0 <= k < |nodes| ==> TagsDistinct(nodes[k])
  }

  /** Saving the node at k grows only that node's tags, and keeps tag values duplicate-free. */
  lemma NodeUpdateGrows(nodes: seq<Node>, k: nat, params: seq<ParameterRow>)
    requires k < |nodes|
    ensures Grown(nodes, nodes[k := Extended(nodes[k], params)])
    ensures AllTagsDistinct(nodes) ==> AllTagsDistinct(nodes[k := Extended(nodes[k], params)])
  {
    PayloadTags(nodes[k], params);
  }

  /** Whether a row reaches a save: its tags are text, every search is answered, its name is text and names a node. */
  ghost predicate Saves(s: HState, item: Record, search: string -> Response<ParameterRow>) {
    && "tags" in item && item["tags"].Some?
    && TagSearch(item, search).stop.SearchDone?
    && "name" in item && item["name"].Some?
    && var parts := Split(item["name"].value, '>');
    ChildIndex(parts, s.nodes, |parts|).Some?
  }

  /**
   * One row saves at most one node, exactly when it reaches a save; that
   * node, the deepest-prefix one, is the only one whose tags grow.
   * Duplicate-free tag values stay so.
   */
  lemma ItemStepSaves(s: HState, item: Record, search: string -> Response<ParameterRow>, save: HierarchyPayload -> nat)
    ensures var r := ItemStep(s, item, search, save);
      && Grown(s.nodes, r.state.nodes)
      && (AllTagsDistinct(s.nodes) ==> AllTagsDistinct(r.state.nodes))
    ensures var r := ItemStep(s, item, search, save);
      && (Saves(s, item, search) ==>
            var parts := Split(item["name"].value, '>');
            var k := ChildIndex(parts, s.nodes, |parts|).value;
            var hits := TagSearch(item, search).hits;
            r.state.posts == s.posts + [Payload(s.nodes[k], hits)])
      && (!Saves(s, item, search) ==> r.state.posts == s.posts && r.state.nodes == s.nodes)
  {
    if Saves(s, item, search) {
      ItemStepReachesSave(s, item, search, save);
      SaveStepGrows(s, item["name"].value, TagSearch(item, search).hits, save);
    } else {
      ItemStepSkipsSave(s, item, search, save);
    }
  }

  /** A row that reaches a save does exactly that save. */
  lemma ItemStepReachesSave(s: HState, item: Record, search: string -> Response<ParameterRow>, save: HierarchyPayload -> nat)
    requires "tags" in item && item["tags"].Some? && TagSearch(item, search).stop.SearchDone?
    requires "name" in item && item["name"].Some?
    ensures ItemStep(s, item, search, save) == SaveStep(s, item["name"].value, TagSearch(item, search).hits, save)
  {
  }

  /** A row that does not reach a save leaves the saves and the nodes alone. */
  lemma ItemStepSkipsSave(s: HState, item: Record, search: string -> Response<ParameterRow>, save: HierarchyPayload -> nat)
    requires !Saves(s, item, search)
    ensures ItemStep(s, item, search, save).state.posts == s.posts
    ensures ItemStep(s, item, search, save).state.nodes == s.nodes
  {
    if "tags" in item && item["tags"].Some? && TagSearch(item, search).stop.SearchDone?
       && "name" in item && item["name"].Some? {
      ItemStepReachesSave(s, item, search, save);
      SaveStepGrows(s, item["name"].value, TagSearch(item, search).hits, save);
    }
  }

  /** A save changes the one node the path leads to, if any, and posts its payload. */
  lemma SaveStepGrows(s: HState, name: string, hits: seq<ParameterRow>, save: HierarchyPayload -> nat)
    ensures var r := SaveStep(s, name, hits, save);
      var parts := Split(name, '>');
      var c := ChildIndex(parts, s.nodes, |parts|);
      && Grown(s.nodes, r.state.nodes)
      && (AllTagsDistinct(s.nodes) ==> AllTagsDistinct(r.state.nodes))
      && (c.Some? ==> r.state.posts == s.posts + [Payload(s.nodes[c.value], hits)])
      && (c.None? ==> r.state.posts == s.posts && r.state.nodes == s.nodes)
  {
    var parts := Split(name, '>');
    var c := ChildIndex(parts, s.nodes, |parts|);
    if c.Some? {
      NodeUpdateGrows(s.nodes, c.value, hits);
    }
  }

  /**
   * The whole loop changes the nodes only by growing their tag lists, keeps
   * their tag values duplicate-free, and saves at most once per row.
   */
  lemma {:induction false} HierarchyRunKeepsNodes(s: HState, items: seq<Record>, search: string -> Response<ParameterRow>,
                                                  save: HierarchyPayload -> nat, n: nat)
    requires n <= |items|
    ensures var r := HierarchyRun(s, items, search, save, n);
      && Grown(s.nodes, r.state.nodes)
      && (AllTagsDistinct(s.nodes) ==> AllTagsDistinct(r.state.nodes))
      && s.posts <= r.state.posts && |r.state.posts| <= |s.posts| + n
  {
    if n > 0 {
      HierarchyRunKeepsNodes(s, items, search, save, n - 1);
      var prev := HierarchyRun(s, items, search, save, n - 1);
      if prev.failed {
        FailedStep(s, items, search, save, n);
      } else {
        HierarchyRunNext(s, items, search, save, n);
        ItemStepSaves(prev.state, items[n - 1], search, save);
        var r := ItemStep(prev.state, items[n - 1], search, save);
        GrownTransitive(s.nodes, prev.state.nodes, r.state.nodes);
      }
    }
  }

  // ------------------------------------------------------------ the handler

  class HierarchyHandler {
    /** `self.response_messages`, which may be `None` until conversion. */
    var responseMessages: Option<string>
    var hierarchyList: seq<Record>
    /** Every payload saved, in order. */
    ghost var posts: seq<HierarchyPayload>

    constructor(responseMessages: Option<string>)
      ensures this.responseMessages == responseMessages && hierarchyList == [] && posts == []
    {
      this.responseMessages := responseMessages;
      hierarchyList := [];
      posts := [];
    }

    /**
     * extract_unit_data: the groups stitched back together. With no group,
     * pandas refuses the concatenation and the message is appended, unless
     * the buffer is still `None`, in which case the append itself fails.
     */
    method ExtractUnitData(groups: seq<seq<nat>>, df: Table) returns (r: Option<Table>)
      requires forall g, k :: 0 <= g < |groups| && 0 <= k < |groups[g]| ==> groups[g][k] < |df|
      modifies this
      ensures hierarchyList == old(hierarchyList) && posts == old(posts)
      ensures |groups| > 0 ==> r == Some(Stitch(df, groups)) && responseMessages == old(responseMessages)
      ensures |groups| == 0 ==> r.None?
      ensures |groups| == 0 && old(responseMessages).None? ==> responseMessages.None?
      ensures |groups| == 0 && old(responseMessages).Some? ==>
        responseMessages == Some(old(responseMessages).value + ExtractPrefix + NoObjectsToConcatenate + "\n")
    {
      var extracted := ExtractGroups(df, groups, NoObjectsToConcatenate);
      if extracted.Failure? {
        if responseMessages.Some? {
          responseMessages := Some(responseMessages.value + ExtractPrefix + extracted.error + "\n");
        }
        return None;
      }
      return Some(extracted.value);
    }

    /**
     * convert_unit_metadata_to_dict: rows are appended to the list as they
     * convert; once the header is read a `None` buffer becomes "".
     */
    method ConvertUnitMetadataToDict(df: Table) returns (ok: bool)
      requires Rectangular(df)
      modifies this
      ensures posts == old(posts)
      ensures var c := Convert(HierarchyPolicy, df);
        && (ok <==> c.error.None?)
        && (c.error == Some(EmptyTable) ==>
              hierarchyList == old(hierarchyList)
              && responseMessages == (if old(responseMessages).None? then None
                                      else Some(old(responseMessages).value + ConvertPrefix + ErrorText(HierarchyPolicy, EmptyTable) + "\n")))
        && (c.error != Some(EmptyTable) ==>
              var base := if old(responseMessages).Some? then old(responseMessages).value else "";
              && hierarchyList == old(hierarchyList) + c.records
              && responseMessages == Some(if c.error.None? then base else ConvertFailureLog(base, ConvertPrefix, HierarchyPolicy, c.error.value)))
    {
      var records, error := ConvertTable(HierarchyPolicy, df);
      if error == Some(EmptyTable) {
        if responseMessages.Some? {
          responseMessages := Some(responseMessages.value + ConvertPrefix + ErrorText(HierarchyPolicy, EmptyTable) + "\n");
        }
        return false;
      }
      if responseMessages.None? {
        responseMessages := Some("");
      }
      hierarchyList := hierarchyList + records;
      if error.Some? {
        responseMessages := Some(ConvertFailureLog(responseMessages.value, ConvertPrefix, HierarchyPolicy, error.value));
        return false;
      }
      return true;
    }

    /** fetch_hierarchy_data: the nodes of the response (none for an empty `data`). */
    method FetchHierarchyData(listing: Response<Node>) returns (nodes: seq<Node>, ok: bool)
      requires responseMessages.Some?
      modifies this
      ensures hierarchyList == old(hierarchyList) && posts == old(posts)
      ensures ok <==> listing.status == OK
      ensures ok ==> nodes == listing.body && responseMessages == old(responseMessages)
      ensures !ok ==> responseMessages == Some(old(responseMessages).value + FailedFetch(listing.status, listing.text))
    {
      if listing.status != OK {
        responseMessages := Some(responseMessages.value + FailedFetch(listing.status, listing.text));
        return [], false;
      }
      return listing.body, true;
    }

    /** check_parameter: the first row found for each tag name, in order; a refused search stops it. */
    method CheckParameter(cleanedTags: seq<string>, search: string -> Response<ParameterRow>) returns (results: seq<ParameterRow>, ok: bool)
      requires responseMessages.Some?
      modifies this
      ensures hierarchyList == old(hierarchyList) && posts == old(posts)
      ensures var found := SearchRun(Filters(cleanedTags), search, |cleanedTags|);
        && (ok <==> found.stop.SearchDone?)
        && (ok ==> results == found.hits)
        && (!found.stop.SearchRejected? ==> responseMessages == old(responseMessages))
        && (found.stop.SearchRejected? ==>
              responseMessages == Some(old(responseMessages).value + FailedParameterFetch(found.stop.status, found.stop.text)))
    {
      var stop;
      results, stop := SearchEach(Filters(cleanedTags), search);
      if stop.SearchRejected? {
        responseMessages := Some(responseMessages.value + FailedParameterFetch(stop.status, stop.text));
        return results, false;
      }
      if stop.SearchFault? {
        return results, false;
      }
      return results, true;
    }

    /**
     * update_hierarchy: the node's fields and its tags extended with the new
     * ones are saved; the node's own tag list is extended in place.
     */
    method UpdateHierarchy(node: Node, parameterData: seq<ParameterRow>, save: HierarchyPayload -> nat) returns (updated: Node, ok: bool)
      requires responseMessages.Some?
      modifies this
      ensures hierarchyList == old(hierarchyList)
      ensures var p := Payload(node, parameterData);
        && posts == old(posts) + [p] && updated == Extended(node, parameterData)
        && (ok <==> save(p) == OK)
        && (ok ==> responseMessages == old(responseMessages))
        && (!ok ==>
              var b := old(responseMessages).value + Refused;
              responseMessages == Some(b + UpdatePrefix + HttpErrorText(save(p), b) + "\n"))
    {
      var base := if node.tags.Some? then node.tags.value else [];
      var newTags := UpdateTags(base, parameterData);
      var tags := base + newTags;
      var payload := HierarchyPayload(node.nodeType, node.nodeId, node.name, node.parentId, node.desc, tags);
      updated := if node.tags.Some? then node.(tags := Some(tags)) else node;
      var status := save(payload);
      posts := posts + [payload];
      if status != OK {
        var b := responseMessages.value + Refused;
        responseMessages := Some(b + UpdatePrefix + HttpErrorText(status, b) + "\n");
        return updated, false;
      }
      return updated, true;
    }

    /** The deepest-prefix node of a path updated, when there is one. */
    method UpdateDeepest(name: string, parameterData: seq<ParameterRow>, nodes: seq<Node>, save: HierarchyPayload -> nat)
      returns (after: seq<Node>, ok: bool)
      requires responseMessages.Some?
      modifies this
      ensures hierarchyList == old(hierarchyList) && responseMessages.Some?
      ensures HStep(HState(posts, responseMessages.value, after), !ok)
        == SaveStep(HState(old(posts), old(responseMessages).value, nodes), name, parameterData, save)
    {
      var hierarchyParts := Split(name, '>');
      var child := DeepestMatch(hierarchyParts, nodes);
      if child.None? {
        return nodes, true;
      }
      var updated;
      updated, ok := UpdateHierarchy(nodes[child.value], parameterData, save);
      after := nodes[child.value := updated];
      if ok {
        responseMessages := Some(responseMessages.value + UpdatedMessage);
      }
    }

    /** One sheet row of hierarchy_automation. */
    method ProcessItem(item: Record, nodes: seq<Node>, search: string -> Response<ParameterRow>, save: HierarchyPayload -> nat)
      returns (after: seq<Node>, ok: bool)
      requires responseMessages.Some?
      modifies this
      ensures hierarchyList == old(hierarchyList) && responseMessages.Some?
      ensures HStep(HState(posts, responseMessages.value, after), !ok)
        == ItemStep(HState(old(posts), old(responseMessages).value, nodes), item, search, save)
    {
      if "tags" !in item || item["tags"].None? {
        return nodes, true;
      }
      var cleanedTags := TagNames(item["tags"].value);
      var parameterData;
      parameterData, ok := CheckParameter(cleanedTags, search);
      if !ok {
        return nodes, false;
      }
      if "name" !in item || item["name"].None? {
        return nodes, false;
      }
      after, ok := UpdateDeepest(item["name"].value, parameterData, nodes, save);
    }

    /** The loop of hierarchy_automation over the converted rows, stopping at the first that raises. */
    method ProcessItems(nodes: seq<Node>, search: string -> Response<ParameterRow>, save: HierarchyPayload -> nat)
      returns (after: seq<Node>, ok: bool)
      requires responseMessages.Some?
      modifies this
      ensures hierarchyList == old(hierarchyList) && responseMessages.Some?
      ensures HStep(HState(posts, responseMessages.value, after), !ok)
        == HierarchyRun(HState(old(posts), old(responseMessages).value, nodes), hierarchyList, search, save, |hierarchyList|)
    {
      ghost var s0 := HState(posts, responseMessages.value, nodes);
      after, ok := nodes, true;
      var i := 0;
      while i < |hierarchyList| && ok
        invariant i <= |hierarchyList| && hierarchyList == old(hierarchyList) && responseMessages.Some?
        invariant HStep(HState(posts, responseMessages.value, after), !ok)
          == HierarchyRun(s0, hierarchyList, search, save, if ok then i else |hierarchyList|)
      {
        after, ok := ProcessNext(i, after, search, save, s0);
        i := i + 1;
      }
    }

    /** One pass of the loop of hierarchy_automation; a row that raises ends the run. */
    method ProcessNext(i: nat, nodes: seq<Node>, search: string -> Response<ParameterRow>, save: HierarchyPayload -> nat, ghost s0: HState)
      returns (after: seq<Node>, ok: bool)
      requires i < |hierarchyList| && responseMessages.Some?
      requires HStep(HState(posts, responseMessages.value, nodes), false) == HierarchyRun(s0, hierarchyList, search, save, i)
      modifies this
      ensures hierarchyList == old(hierarchyList) && responseMessages.Some?
      ensures HStep(HState(posts, responseMessages.value, after), !ok)
        == HierarchyRun(s0, hierarchyList, search, save, if ok then i + 1 else |hierarchyList|)
    {
      HierarchyRunFrom(s0, hierarchyList, search, save, i, HState(posts, responseMessages.value, nodes));
      after, ok := ProcessItem(hierarchyList[i], nodes, search, save);
      if !ok {
        HierarchyRunStaysFailed(s0, hierarchyList, search, save, i + 1, |hierarchyList|);
      }
    }

    /**
     * hierarchy_automation: the buffer is returned when every row went
     * through; otherwise the exception raised carries the buffer as it
     * stands (the automation's own message is only logged).
     */
    method HierarchyAutomation(df: Table, listing: Response<Node>, search: string -> Response<ParameterRow>,
                               save: HierarchyPayload -> nat) returns (r: Result<string, Option<string>>)
      requires Normalised(df)
      modifies this
      ensures r.Failure? ==> r.error == responseMessages
      ensures |df| == 0 ==>
        && r.Failure? && hierarchyList == old(hierarchyList) && posts == old(posts)
        && responseMessages == (if old(responseMessages).None? then None
                                else Some(old(responseMessages).value + ExtractPrefix + NoObjectsToConcatenate + "\n"))
      ensures |df| > 0 ==>
        var c := Convert(HierarchyPolicy, df);
        var base := if old(responseMessages).Some? then old(responseMessages).value else "";
        var run := HierarchyRun(HState(old(posts), base, listing.body), old(hierarchyList) + c.records, search, save,
                                |old(hierarchyList) + c.records|);
        && (r.Success? <==> c.error.None? && listing.status == OK && !run.failed)
        && (c.error == Some(EmptyTable) ==>
              hierarchyList == old(hierarchyList) && posts == old(posts)
              && responseMessages == (if old(responseMessages).None? then None
                                      else Some(old(responseMessages).value + ConvertPrefix + ErrorText(HierarchyPolicy, EmptyTable) + "\n")))
        && (c.error != Some(EmptyTable) ==> hierarchyList == old(hierarchyList) + c.records)
        && (c.error.Some? && c.error != Some(EmptyTable) ==>
              posts == old(posts) && responseMessages == Some(ConvertFailureLog(base, ConvertPrefix, HierarchyPolicy, c.error.value)))
        && (c.error.None? && listing.status != OK ==>
              posts == old(posts) && responseMessages == Some(base + FailedFetch(listing.status, listing.text)))
        && (c.error.None? && listing.status == OK ==>
              posts == run.state.posts && responseMessages == Some(run.state.buf) && (r.Success? ==> r.value == run.state.buf))
    {
      var groups := GroupMergedRows(df, 0);
      var extracted := ExtractUnitData(groups, df);
      if extracted.None? {
        return Failure(responseMessages);
      }
      ExtractGroupingOfTable(df, 0, groups, NoObjectsToConcatenate);
      var ok := ConvertUnitMetadataToDict(extracted.value);
      if !ok {
        return Failure(responseMessages);
      }
      var nodes;
      nodes, ok := FetchHierarchyData(listing);
      if !ok {
        return Failure(responseMessages);
      }
      nodes, ok := ProcessItems(nodes, search, save);
      if !ok {
        return Failure(responseMessages);
      }
      return Success(responseMessages.value);
    }
  }
}

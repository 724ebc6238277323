/**
 * The GitHub GraphQL (v4) strategy of app/github_v4.py: two queries, one
 * for the account's total counts and one for its repositories with their
 * stargazer counts, languages and topics, assembled into one summary.
 *
 * The upstream is a function from the posted payload to the decoded
 * response body; the strategy also returns the payloads it posted, in order.
 */
module GithubV4 {
  import opened Json
  import opened Counting

  /** The two GraphQL documents; their text is opaque here, only the shape of their answers matters. */
  datatype Query = UnpaginatedData | NonPaginatedResources

  /** The JSON body of one POST: the query and its variables. */
  datatype Payload = Payload(query: Query, variables: map<string, Json>)

  /** The page size the runner asks for unless told otherwise. */
  const DefaultFirst: int := 100

  function QueryPayload(query: Query, username: string, first: int, after: Option<string>): (p: Payload)
    ensures p.query == query && p.variables.Keys == {"username", "first", "after"}
    ensures p.variables["username"] == Str(username) && p.variables["first"] == Int(first)
    ensures p.variables["after"] == (if after.Some? then Str(after.value) else Null)
  {
    Payload(query, map[
      "username" := Str(username),
      "first" := Int(first),
      "after" := if after.Some? then Str(after.value) else Null])
  }

  /**
   * `github_query_runner`: post the query; a response with an `errors` key
   * raises, otherwise the answer is `data.user`. The response status is not
   * checked.
   */
  function QueryRunner(post: Payload -> Json, query: Query, username: string,
                       first: int := DefaultFirst, after: Option<string> := None): (r: Result<Json>)
    ensures var data := post(QueryPayload(query, username, first, after));
      && (data.Object? && "errors" in data.fields ==> r == Failure(QueryErrors))
      && (!(data.Object? && "errors" in data.fields) ==> r == Path(data, ["data", "user"]))
  {
    var data := post(QueryPayload(query, username, first, after));
    if data.Object? && "errors" in data.fields then Failure(QueryErrors)
    else Path(data, ["data", "user"])
  }

  /** `Path` over two and three keys, written out. */
  lemma PathTwo(j: Json, a: string, b: string)
    ensures Path(j, [a, b]).Success? <==> (j.Object? && a in j.fields && j.fields[a].Object? && b in j.fields[a].fields)
    ensures Path(j, [a, b]).Success? ==> Path(j, [a, b]).value == j.fields[a].fields[b]
    ensures Path(j, [a, b]).Failure? ==> Path(j, [a, b]).error == SchemaMismatch
  {
    assert [a, b][0] == a && [a, b][1..] == [b];
    assert [b][0] == b && [b][1..] == [];
    var f := Field(j, a);
    if f.Success? {
      assert Path(j, [a, b]) == Path(f.value, [b]);
      var g := Field(f.value, b);
      if g.Success? {
        assert Path(f.value, [b]) == Path(g.value, []) == Success(g.value);
      } else {
        assert Path(f.value, [b]).Failure?;
      }
    } else {
      assert Path(j, [a, b]).Failure?;
    }
  }

  /** An answer carrying `errors` never yields data, whatever else it holds. */
  lemma QueryErrorsRaise(post: Payload -> Json, query: Query, username: string)
    requires post(QueryPayload(query, username, DefaultFirst, None)).Object?
    requires "errors" in post(QueryPayload(query, username, DefaultFirst, None)).fields
    ensures QueryRunner(post, query, username) == Failure(QueryErrors)
  {
  }

  /**
   * Without `errors`, whatever else the answer holds, the runner returns
   * exactly `data.user`, and an answer missing `data` or `data.user` fails
   * with a schema mismatch (the `KeyError` of the subscripts).
   */
  lemma QueryRunnerReturnsUser(post: Payload -> Json, query: Query, username: string)
    requires !(post(QueryPayload(query, username, DefaultFirst, None)).Object?
               && "errors" in post(QueryPayload(query, username, DefaultFirst, None)).fields)
    ensures var d := post(QueryPayload(query, username, DefaultFirst, None));
      QueryRunner(post, query, username).Success? <==>
        d.Object? && "data" in d.fields && d.fields["data"].Object? && "user" in d.fields["data"].fields
    ensures var d := post(QueryPayload(query, username, DefaultFirst, None));
      QueryRunner(post, query, username).Success? ==>
        QueryRunner(post, query, username) == Success(d.fields["data"].fields["user"])
    ensures QueryRunner(post, query, username).Failure? ==> QueryRunner(post, query, username) == Failure(SchemaMismatch)
  {
    PathTwo(post(QueryPayload(query, username, DefaultFirst, None)), "data", "user");
  }

  // ---------------------------------------------------------------------
  // The unpaginated counts
  // ---------------------------------------------------------------------

  /** Every field of `user` is an object holding `totalCount`. */
  predicate AllCounted(user: Json) {
    user.Object? && forall k :: k in user.fields ==> user.fields[k].Object? && "totalCount" in user.fields[k].fields
  }

  /** The dict comprehension over `unpaginated_data`: each key to its `totalCount`, key names unchanged. */
  function UnpaginatedOutput(user: Json): (r: Result<map<string, Json>>)
    ensures r.Success? <==> AllCounted(user)
    ensures r.Success? ==> r.value.Keys == user.fields.Keys
    ensures r.Success? ==> forall k :: k in r.value ==> r.value[k] == user.fields[k].fields["totalCount"]
  {
    if AllCounted(user) then Success(map k | k in user.fields :: user.fields[k].fields["totalCount"])
    else Failure(SchemaMismatch)
  }

  // ---------------------------------------------------------------------
  // Repository edges: stargazers, languages, topics
  // ---------------------------------------------------------------------

  const StarsPath: seq<string> := ["node", "stargazers", "totalCount"]
  const LanguagesPath: seq<string> := ["node", "languages", "nodes"]
  const TopicsPath: seq<string> := ["node", "repositoryTopics", "nodes"]
  const LanguageNamePath: seq<string> := ["name"]
  const TopicNamePath: seq<string> := ["topic", "name"]

  /** `stargazers_list`: each edge's stargazer count, failing at the first edge without one. */
  function StargazerCounts(edges: seq<Json>): (r: Result<seq<int>>)
    ensures r.Success? <==> forall i :: 0 <= i < |edges| ==>
      Path(edges[i], StarsPath).Success? && AsInt(Path(edges[i], StarsPath).value).Some?
    ensures r.Success? ==> (|r.value| == |edges| && forall i :: 0 <= i < |edges| ==>
      r.value[i] == AsInt(Path(edges[i], StarsPath).value).value)
    decreases |edges|
  {
    if edges == [] then Success([])
    else
      var front := edges[..|edges| - 1];
      assert forall i :: 0 <= i < |front| ==> front[i] == edges[i];
      var done :- StargazerCounts(front);
      var count :- Path(edges[|edges| - 1], StarsPath);
      match AsInt(count)
      case None => Failure(SchemaMismatch)
      case Some(n) => Success(done + [n])
  }

  /** `sum(...)` of a list of ints. */
  function Sum(xs: seq<int>): (r: int)
    ensures (forall i :: 0 <= i < |xs| ==> xs[i] >= 0) ==> r >= 0 && forall i :: 0 <= i < |xs| ==> xs[i] <= r
    decreases |xs|
  {
    if xs == [] then 0
    else
      var front := xs[..|xs| - 1];
      assert forall i :: 0 <= i < |front| ==> front[i] == xs[i];
      Sum(front) + xs[|xs| - 1]
  }

  /** The stars received add up edge by edge: the sum of a concatenation is the sum of the sums. */
  lemma {:induction false} SumAppend(xs: seq<int>, ys: seq<int>)
    ensures Sum(xs + ys) == Sum(xs) + Sum(ys)
    decreases |ys|
  {
    if ys == [] {
      assert xs + ys == xs;
    } else {
      var front := ys[..|ys| - 1];
      assert xs + ys == (xs + front) + [ys[|ys| - 1]];
      assert (xs + ys)[..|xs + ys| - 1] == xs + front;
      SumAppend(xs, front);
    }
  }

  /** The stargazer counts of a concatenation of edge lists are the two lists of counts, concatenated. */
  lemma StargazerCountsAppend(a: seq<Json>, b: seq<Json>)
    requires StargazerCounts(a).Success? && StargazerCounts(b).Success?
    ensures StargazerCounts(a + b) == Success(StargazerCounts(a).value + StargazerCounts(b).value)
  {
    var ab := a + b;
    assert forall i :: 0 <= i < |a| ==> ab[i] == a[i];
    assert forall i :: |a| <= i < |ab| ==> ab[i] == b[i - |a|];
    var r := StargazerCounts(ab);
    assert r.Success?;
    assert r.value == StargazerCounts(a).value + StargazerCounts(b).value;
  }

  /** The stars received over two batches of edges are the sum of each batch's stars; no edges, no stars. */
  lemma StarsReceivedAdditive(a: seq<Json>, b: seq<Json>)
    requires StargazerCounts(a).Success? && StargazerCounts(b).Success?
    ensures Sum(StargazerCounts(a + b).value) == Sum(StargazerCounts(a).value) + Sum(StargazerCounts(b).value)
    ensures StargazerCounts([]) == Success([]) && Sum([]) == 0
  {
    StargazerCountsAppend(a, b);
    SumAppend(StargazerCounts(a).value, StargazerCounts(b).value);
  }

  /**
   * The nested list comprehension: each edge's node list at `listPath`,
   * dropping the empty ones; an edge without a list there raises.
   */
  function NestedNodeLists(edges: seq<Json>, listPath: seq<string>): (r: Result<seq<seq<Json>>>)
    ensures r.Success? <==> forall i :: 0 <= i < |edges| ==>
      Path(edges[i], listPath).Success? && Path(edges[i], listPath).value.Array?
    ensures r.Success? ==> forall l :: l in r.value ==> l != []
    decreases |edges|
  {
    if edges == [] then Success([])
    else
      var front := edges[..|edges| - 1];
      assert forall i :: 0 <= i < |front| ==> front[i] == edges[i];
      var done :- NestedNodeLists(front, listPath);
      var nodes :- Path(edges[|edges| - 1], listPath);
      if !nodes.Array? then Failure(SchemaMismatch)
      else if nodes.items == [] then Success(done)
      else Success(done + [nodes.items])
  }

  /** The node list of one edge at `listPath`, or nothing when there is no list there. */
  function NodeListAt(edge: Json, listPath: seq<string>): seq<Json> {
    if Path(edge, listPath).Success? && Path(edge, listPath).value.Array? then Path(edge, listPath).value.items else []
  }

  /** Reference for the comprehension: every edge's node list, empty ones included, in edge order. */
  function AllNodeLists(edges: seq<Json>, listPath: seq<string>): seq<seq<Json>> {
    seq(|edges|, i requires 0 <= i < |edges| => NodeListAt(edges[i], listPath))
  }

  /**
   * Dropping the empty lists loses no node: the chained result of the
   * comprehension is every node of every edge, in edge order.
   */
  lemma {:induction false} NestedNodeListsKeepsEveryNode(edges: seq<Json>, listPath: seq<string>)
    ensures NestedNodeLists(edges, listPath).Success? ==>
      Flatten(NestedNodeLists(edges, listPath).value) == Flatten(AllNodeLists(edges, listPath))
    decreases |edges|
  {
    if edges != [] && NestedNodeLists(edges, listPath).Success? {
      var front := edges[..|edges| - 1];
      var last := edges[|edges| - 1];
      assert forall i :: 0 <= i < |front| ==> front[i] == edges[i];
      assert NestedNodeLists(front, listPath).Success?;
      NestedNodeListsKeepsEveryNode(front, listPath);
      var done := NestedNodeLists(front, listPath).value;
      var nodes := NodeListAt(last, listPath);
      assert AllNodeLists(edges, listPath) == AllNodeLists(front, listPath) + [nodes];
      FlattenSnoc(AllNodeLists(front, listPath), nodes);
      if nodes == [] {
        assert NestedNodeLists(edges, listPath).value == done;
      } else {
        assert NestedNodeLists(edges, listPath).value == done + [nodes];
        FlattenSnoc(done, nodes);
      }
    }
  }

  /** An edge with an empty node list is filtered out: it contributes nothing. */
  lemma EmptyNodeListAddsNothing(edges: seq<Json>, edge: Json, listPath: seq<string>)
    requires Path(edge, listPath) == Success(Array([]))
    ensures NestedNodeLists(edges + [edge], listPath) == NestedNodeLists(edges, listPath)
  {
    assert (edges + [edge])[..|edges|] == edges;
  }

  /** An edge with a non-empty node list contributes exactly that list, after the earlier edges' lists. */
  lemma NodeListAppended(edges: seq<Json>, edge: Json, listPath: seq<string>, nodes: seq<Json>)
    requires NestedNodeLists(edges, listPath).Success?
    requires Path(edge, listPath) == Success(Array(nodes)) && nodes != []
    ensures NestedNodeLists(edges + [edge], listPath) == Success(NestedNodeLists(edges, listPath).value + [nodes])
  {
    assert (edges + [edge])[..|edges|] == edges;
  }

  /** The name of every node, read at `namePath`; failing at the first node without a string there. */
  function NodeNames(nodes: seq<Json>, namePath: seq<string>): (r: Result<seq<string>>)
    ensures r.Success? <==> forall i :: 0 <= i < |nodes| ==>
      Path(nodes[i], namePath).Success? && Path(nodes[i], namePath).value.Str?
    ensures r.Success? ==> (|r.value| == |nodes| && forall i :: 0 <= i < |nodes| ==>
      Path(nodes[i], namePath).value == Str(r.value[i]))
    decreases |nodes|
  {
    if nodes == [] then Success([])
    else
      var front := nodes[..|nodes| - 1];
      assert forall i :: 0 <= i < |front| ==> front[i] == nodes[i];
      var done :- NodeNames(front, namePath);
      var name :- Path(nodes[|nodes| - 1], namePath);
      if name.Str? then Success(done + [name.s]) else Failure(SchemaMismatch)
  }

  /** `language_dict[name] += 1`: the tally of the names seen so far, extended by one name. */
  method CountName(counter: Counter, ghost names: seq<string>, name: string)
    requires counter.counts == Tally(names)
    modifies counter
    ensures counter.counts == Tally(names + [name])
  {
    TallySnoc(names, name);
    BumpOne(counter.counts, name);
    counter.Add(name, 1);
  }

  /** The counting loop: add 1 to a name's counter for every node, reading each name at `namePath`. */
  method TallyNames(nodes: seq<Json>, namePath: seq<string>) returns (r: Result<map<string, int>>)
    ensures r.Success? <==> NodeNames(nodes, namePath).Success?
    ensures r.Success? ==> r.value == Tally(NodeNames(nodes, namePath).value)
  {
    var counter := new Counter();
    ghost var names: seq<string> := [];
    for i := 0 to |nodes|
      invariant |names| == i
      invariant forall j :: 0 <= j < i ==> Path(nodes[j], namePath) == Success(Str(names[j]))
      invariant counter.counts == Tally(names)
    {
      var name := Path(nodes[i], namePath);
      if name.Failure? || !name.value.Str? {
        NodeNamesFailAt(nodes, namePath, i);
        return Failure(SchemaMismatch);
      }
      CountName(counter, names, name.value.s);
      names := names + [name.value.s];
    }
    NodeNamesAll(nodes, namePath, names);
    r := Success(counter.counts);
  }

  /**
   * `parse_language_nodes` / `parse_topic_nodes`: chain the non-empty node
   * lists and add 1 to a name's counter for every node that has that name;
   * the result is a plain dict.
   */
  method ParseNodes(edges: seq<Json>, listPath: seq<string>, namePath: seq<string>) returns (r: Result<map<string, int>>)
    ensures r.Success? <==> (NestedNodeLists(edges, listPath).Success?
      && NodeNames(Flatten(NestedNodeLists(edges, listPath).value), namePath).Success?)
    ensures r.Success? ==>
      r.value == Tally(NodeNames(Flatten(NestedNodeLists(edges, listPath).value), namePath).value)
    ensures r.Success? ==>
      && NodeNames(Flatten(AllNodeLists(edges, listPath)), namePath).Success?
      && r.value == Tally(NodeNames(Flatten(AllNodeLists(edges, listPath)), namePath).value)
  {
    var nested := NestedNodeLists(edges, listPath);
    if nested.Failure? {
      return Failure(nested.error);
    }
    NestedNodeListsKeepsEveryNode(edges, listPath);
    r := TallyNames(Flatten(nested.value), namePath);
  }

  lemma NodeNamesAll(nodes: seq<Json>, namePath: seq<string>, names: seq<string>)
    requires |names| == |nodes|
    requires forall j :: 0 <= j < |nodes| ==> Path(nodes[j], namePath) == Success(Str(names[j]))
    ensures NodeNames(nodes, namePath) == Success(names)
  {
    var d := NodeNames(nodes, namePath);
    assert d.Success?;
    assert forall j :: 0 <= j < |nodes| ==> d.value[j] == names[j];
    assert d.value == names;
  }

  lemma NodeNamesFailAt(nodes: seq<Json>, namePath: seq<string>, i: nat)
    requires i < |nodes| && (Path(nodes[i], namePath).Failure? || !Path(nodes[i], namePath).value.Str?)
    ensures NodeNames(nodes, namePath).Failure?
  {
  }

  /** `parse_language_nodes`: languages keyed on `name`. */
  method ParseLanguageNodes(edges: seq<Json>) returns (r: Result<map<string, int>>)
    ensures r.Success? <==> (NestedNodeLists(edges, LanguagesPath).Success?
      && NodeNames(Flatten(NestedNodeLists(edges, LanguagesPath).value), LanguageNamePath).Success?)
    ensures r.Success? ==>
      r.value == Tally(NodeNames(Flatten(NestedNodeLists(edges, LanguagesPath).value), LanguageNamePath).value)
  {
    r := ParseNodes(edges, LanguagesPath, LanguageNamePath);
  }

  /** `parse_topic_nodes`: topics keyed on `topic.name`. */
  method ParseTopicNodes(edges: seq<Json>) returns (r: Result<map<string, int>>)
    ensures r.Success? <==> (NestedNodeLists(edges, TopicsPath).Success?
      && NodeNames(Flatten(NestedNodeLists(edges, TopicsPath).value), TopicNamePath).Success?)
    ensures r.Success? ==>
      r.value == Tally(NodeNames(Flatten(NestedNodeLists(edges, TopicsPath).value), TopicNamePath).value)
  {
    r := ParseNodes(edges, TopicsPath, TopicNamePath);
  }

  /**
   * What the node tally means: a name is a key exactly when some node has
   * it, its count is the number of nodes with that name, and the counts add
   * up to the number of nodes across all edges.
   */
  lemma NodeTallyMeaning(nodes: seq<Json>, namePath: seq<string>, name: string)
    requires NodeNames(nodes, namePath).Success?
    ensures var names := NodeNames(nodes, namePath).value;
      && (name in Tally(names) <==> exists i :: 0 <= i < |nodes| && Path(nodes[i], namePath).value == Str(name))
      && Lookup(Tally(names), name) == CountOf(name, names)
      && Total(Tally(names)) == |nodes|
  {
    var names := NodeNames(nodes, namePath).value;
    TallyTotal(names);
    if name in names {
      var i :| 0 <= i < |names| && names[i] == name;
      assert Path(nodes[i], namePath).value == Str(name);
    }
  }

  // ---------------------------------------------------------------------
  // github_v4_main
  // ---------------------------------------------------------------------

  /** A successful run's repository edges: `data.user.repositories.edges`. */
  function Edges(paged: Json): (r: Result<seq<Json>>)
    ensures r.Success? <==>
      && paged.Object? && "repositories" in paged.fields && paged.fields["repositories"].Object?
      && "edges" in paged.fields["repositories"].fields && paged.fields["repositories"].fields["edges"].Array?
    ensures r.Success? ==> r.value == paged.fields["repositories"].fields["edges"].items
    ensures r.Failure? ==> r.error == SchemaMismatch
  {
    PathTwo(paged, "repositories", "edges");
    var edges :- Path(paged, ["repositories", "edges"]);
    if edges.Array? then Success(edges.items) else Failure(SchemaMismatch)
  }

  /** The two payloads every complete run posts, in order, both with the default page size and no cursor. */
  function Posted(username: string): seq<Payload> {
    [QueryPayload(UnpaginatedData, username, DefaultFirst, None),
     QueryPayload(NonPaginatedResources, username, DefaultFirst, None)]
  }

  /** Every stage of `github_v4_main` succeeds and the repository page is the only one. */
  ghost predicate V4Succeeds(post: Payload -> Json, username: string) {
    && QueryRunner(post, UnpaginatedData, username).Success?
    && UnpaginatedOutput(QueryRunner(post, UnpaginatedData, username).value).Success?
    && QueryRunner(post, NonPaginatedResources, username).Success?
    && var paged := QueryRunner(post, NonPaginatedResources, username).value;
    && Path(paged, ["repositories", "pageInfo", "hasNextPage"]).Success?
    && !Truthy(Path(paged, ["repositories", "pageInfo", "hasNextPage"]).value)
    && Edges(paged).Success?
    && var edges := Edges(paged).value;
    && StargazerCounts(edges).Success?
    && NestedNodeLists(edges, LanguagesPath).Success?
    && NodeNames(Flatten(NestedNodeLists(edges, LanguagesPath).value), LanguageNamePath).Success?
    && NestedNodeLists(edges, TopicsPath).Success?
    && NodeNames(Flatten(NestedNodeLists(edges, TopicsPath).value), TopicNamePath).Success?
  }

  /** The summary: the unpaginated counts, then the stars received, the language tally and the topic tally. */
  ghost function V4Summary(post: Payload -> Json, username: string): map<string, Json>
    requires V4Succeeds(post, username)
  {
    var counts := UnpaginatedOutput(QueryRunner(post, UnpaginatedData, username).value).value;
    var edges := Edges(QueryRunner(post, NonPaginatedResources, username).value).value;
    counts["starsReceived" := Int(Sum(StargazerCounts(edges).value))]
          ["languages" := TallyJson(Tally(NodeNames(Flatten(NestedNodeLists(edges, LanguagesPath).value), LanguageNamePath).value))]
          ["topics" := TallyJson(Tally(NodeNames(Flatten(NestedNodeLists(edges, TopicsPath).value), TopicNamePath).value))]
  }

  /**
   * `github_v4_main`: the unpaginated counts first, then the repository
   * page; a page reporting `hasNextPage` aborts rather than returning a
   * truncated tally.
   */
  method GithubV4Main(post: Payload -> Json, username: string) returns (r: Result<map<string, Json>>, posted: seq<Payload>)
    ensures |posted| >= 1 && posted <= Posted(username)
    ensures QueryRunner(post, UnpaginatedData, username).Failure? ==> r.Failure? && |posted| == 1
    ensures QueryRunner(post, UnpaginatedData, username).Success?
            && UnpaginatedOutput(QueryRunner(post, UnpaginatedData, username).value).Failure?
            ==> r.Failure? && |posted| == 1
    ensures r.Success? <==> V4Succeeds(post, username)
    ensures r.Success? ==> r.value == V4Summary(post, username) && posted == Posted(username)
    ensures (QueryRunner(post, UnpaginatedData, username).Success?
             && UnpaginatedOutput(QueryRunner(post, UnpaginatedData, username).value).Success?
             && QueryRunner(post, NonPaginatedResources, username).Success?
             && Path(QueryRunner(post, NonPaginatedResources, username).value,
                     ["repositories", "pageInfo", "hasNextPage"]).Success?
             && Truthy(Path(QueryRunner(post, NonPaginatedResources, username).value,
                            ["repositories", "pageInfo", "hasNextPage"]).value))
            ==> r == Failure(NeedPagination)
  {
    posted := [QueryPayload(UnpaginatedData, username, DefaultFirst, None)];
    var unpaginatedData := QueryRunner(post, UnpaginatedData, username);
    if unpaginatedData.Failure? {
      return Failure(unpaginatedData.error), posted;
    }
    var counts := UnpaginatedOutput(unpaginatedData.value);
    if counts.Failure? {
      return Failure(counts.error), posted;
    }
    var output := counts.value;

    posted := posted + [QueryPayload(NonPaginatedResources, username, DefaultFirst, None)];
    var paginatedData := QueryRunner(post, NonPaginatedResources, username);
    if paginatedData.Failure? {
      return Failure(paginatedData.error), posted;
    }
    var hasNextPage := Path(paginatedData.value, ["repositories", "pageInfo", "hasNextPage"]);
    if hasNextPage.Failure? {
      return Failure(hasNextPage.error), posted;
    }
    if Truthy(hasNextPage.value) {
      return Failure(NeedPagination), posted;
    }
    var edges := Edges(paginatedData.value);
    if edges.Failure? {
      return Failure(edges.error), posted;
    }
    var stargazers := StargazerCounts(edges.value);
    if stargazers.Failure? {
      return Failure(stargazers.error), posted;
    }
    output := output["starsReceived" := Int(Sum(stargazers.value))];
    var languages := ParseLanguageNodes(edges.value);
    if languages.Failure? {
      return Failure(languages.error), posted;
    }
    output := output["languages" := TallyJson(languages.value)];
    var topics := ParseTopicNodes(edges.value);
    if topics.Failure? {
      return Failure(topics.error), posted;
    }
    output := output["topics" := TallyJson(topics.value)];
    r := Success(output);
  }

  /** The key names of the summary: the query's aliases, unchanged, plus the three computed ones. */
  lemma V4SummaryKeys(post: Payload -> Json, username: string)
    requires V4Succeeds(post, username)
    ensures V4Summary(post, username).Keys
         == QueryRunner(post, UnpaginatedData, username).value.fields.Keys + {"starsReceived", "languages", "topics"}
  {
  }
}

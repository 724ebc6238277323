/**
 * What the three REST pipelines (app/github_v3.py, github_v3.py, app.py)
 * share: the request URLs, the single-object user fetch, the repository
 * record fields the counter loops read, the starred and user parsers, and
 * the per-repository language fetch.
 */
module RestRecords {
  import opened Json
  import opened Paging
  import opened Counting

  const UsersRoot: string := "https://api.github.com/users/"

  /** The `accept` header that makes the repository listing include `topics`. */
  const MercyPreview: string := "application/vnd.github.mercy-preview+json"

  function UserUrl(username: string): string { UsersRoot + username }
  function ReposUrl(username: string): string { UsersRoot + username + "/repos" }
  function StarredUrl(username: string): string { UsersRoot + username + "/starred" }

  function UserRequest(username: string): Request {
    Request(UserUrl(username), None, None)
  }

  /** `get_github_user_data`: one GET, `raise_for_status`, the decoded body. */
  function FetchUser(fetch: Request -> Response, username: string): (f: Fetched<Json>)
    ensures f.sent == [UserRequest(username)]
    ensures f.result.Success? <==> !IsHttpError(fetch(UserRequest(username)).status)
    ensures f.result.Success? ==> f.result.value == fetch(UserRequest(username)).body
    ensures f.result.Failure? ==> f.result.error == HttpError(fetch(UserRequest(username)).status)
  {
    var resp := fetch(UserRequest(username));
    if IsHttpError(resp.status) then Fetched(Failure(HttpError(resp.status)), [UserRequest(username)])
    else Fetched(Success(resp.body), [UserRequest(username)])
  }

  // ---------------------------------------------------------------------
  // Repository records
  // ---------------------------------------------------------------------

  /** The fields of a repository record the counter loops read. */
  datatype Repo = Repo(fork: bool, watchers: int, size: int, stars: int)

  /**
   * Read `fork`, `watchers_count`, `size` and `stargazers_count`. A record
   * counts as a fork only when `fork` is exactly `True` (`is True`); a
   * missing key or a value that cannot be added to an int raises.
   */
  function DecodeRepo(j: Json): (r: Option<Repo>)
    ensures r.Some? <==>
      && j.Object?
      && "fork" in j.fields
      && "watchers_count" in j.fields && AsInt(j.fields["watchers_count"]).Some?
      && "size" in j.fields && AsInt(j.fields["size"]).Some?
      && "stargazers_count" in j.fields && AsInt(j.fields["stargazers_count"]).Some?
    ensures r.Some? ==>
      && (r.value.fork <==> j.fields["fork"] == Bool(true))
      && r.value.watchers == AsInt(j.fields["watchers_count"]).value
      && r.value.size == AsInt(j.fields["size"]).value
      && r.value.stars == AsInt(j.fields["stargazers_count"]).value
  {
    if !j.Object? || "fork" !in j.fields then None
    else
      var w := if "watchers_count" in j.fields then AsInt(j.fields["watchers_count"]) else None;
      var s := if "size" in j.fields then AsInt(j.fields["size"]) else None;
      var st := if "stargazers_count" in j.fields then AsInt(j.fields["stargazers_count"]) else None;
      if w.None? || s.None? || st.None? then None
      else Some(Repo(j.fields["fork"] == Bool(true), w.value, s.value, st.value))
  }

  /** Decode every record; the loop raises at the first record that does not decode. */
  function DecodeRepos(records: seq<Json>): (r: Result<seq<Repo>>)
    ensures r.Success? <==> forall i :: 0 <= i < |records| ==> DecodeRepo(records[i]).Some?
    ensures r.Success? ==> (|r.value| == |records|
      && forall i :: 0 <= i < |records| ==> r.value[i] == DecodeRepo(records[i]).value)
    decreases |records|
  {
    if records == [] then Success([])
    else
      var front := records[..|records| - 1];
      assert forall i :: 0 <= i < |front| ==> front[i] == records[i];
      var done :- DecodeRepos(front);
      match DecodeRepo(records[|records| - 1])
      case None => Failure(SchemaMismatch)
      case Some(repo) => Success(done + [repo])
  }

  /** `repo['topics']`: a list of topic names. */
  function DecodeTopics(j: Json): (r: Option<seq<string>>)
    ensures r.Some? <==> (j.Object? && "topics" in j.fields && j.fields["topics"].Array?
      && forall t :: t in j.fields["topics"].items ==> t.Str?)
    ensures r.Some? ==> (|r.value| == |j.fields["topics"].items|
      && forall i :: 0 <= i < |r.value| ==> j.fields["topics"].items[i] == Str(r.value[i]))
  {
    if j.Object? && "topics" in j.fields && j.fields["topics"].Array?
       && forall t :: t in j.fields["topics"].items ==> t.Str?
    then
      var items := j.fields["topics"].items;
      assert forall i :: 0 <= i < |items| ==> items[i] in items;
      Some(seq(|items|, i requires 0 <= i < |items| => items[i].s))
    else None
  }

  function DecodeTopicLists(records: seq<Json>): (r: Result<seq<seq<string>>>)
    ensures r.Success? <==> forall i :: 0 <= i < |records| ==> DecodeTopics(records[i]).Some?
    ensures r.Success? ==> (|r.value| == |records|
      && forall i :: 0 <= i < |records| ==> r.value[i] == DecodeTopics(records[i]).value)
    decreases |records|
  {
    if records == [] then Success([])
    else
      var front := records[..|records| - 1];
      assert forall i :: 0 <= i < |front| ==> front[i] == records[i];
      var done :- DecodeTopicLists(front);
      match DecodeTopics(records[|records| - 1])
      case None => Failure(SchemaMismatch)
      case Some(topics) => Success(done + [topics])
  }

  // ---------------------------------------------------------------------
  // Reference counts and sums over repositories
  // ---------------------------------------------------------------------

  function ForkCount(repos: seq<Repo>): nat
    decreases |repos|
  {
    if repos == [] then 0
    else ForkCount(repos[..|repos| - 1]) + (if repos[|repos| - 1].fork then 1 else 0)
  }

  function OriginalCount(repos: seq<Repo>): nat
    decreases |repos|
  {
    if repos == [] then 0
    else OriginalCount(repos[..|repos| - 1]) + (if repos[|repos| - 1].fork then 0 else 1)
  }

  function WatcherSum(repos: seq<Repo>): int
    decreases |repos|
  {
    if repos == [] then 0 else WatcherSum(repos[..|repos| - 1]) + repos[|repos| - 1].watchers
  }

  function TotalSize(repos: seq<Repo>): int
    decreases |repos|
  {
    if repos == [] then 0 else TotalSize(repos[..|repos| - 1]) + repos[|repos| - 1].size
  }

  function StarSum(repos: seq<Repo>): int
    decreases |repos|
  {
    if repos == [] then 0 else StarSum(repos[..|repos| - 1]) + repos[|repos| - 1].stars
  }

  /** Every repository is exactly one of forked or original. */
  lemma {:induction false} ForkPartition(repos: seq<Repo>)
    ensures ForkCount(repos) + OriginalCount(repos) == |repos|
    decreases |repos|
  {
    if repos != [] {
      ForkPartition(repos[..|repos| - 1]);
    }
  }

  /** Some repository is a fork exactly when the fork count is positive; likewise for originals. */
  lemma {:induction false} ForkCountZero(repos: seq<Repo>)
    ensures ForkCount(repos) > 0 <==> exists i :: 0 <= i < |repos| && repos[i].fork
    ensures OriginalCount(repos) > 0 <==> exists i :: 0 <= i < |repos| && !repos[i].fork
    decreases |repos|
  {
    if repos != [] {
      var init := repos[..|repos| - 1];
      ForkCountZero(init);
      assert forall i :: 0 <= i < |init| ==> init[i] == repos[i];
      if ForkCount(init) > 0 {
        var i :| 0 <= i < |init| && init[i].fork;
        assert repos[i].fork;
      }
      if OriginalCount(init) > 0 {
        var i :| 0 <= i < |init| && !init[i].fork;
        assert !repos[i].fork;
      }
    }
  }

  const TotalKey: string := "github_total_repo_count"
  const ForkedKey: string := "github_forked_repo_count"
  const OriginalKey: string := "github_original_repo_count"
  const WatcherKey: string := "github_watcher_count"
  const SizeKey: string := "github_total_repo_size"
  const StarsKey: string := "github_total_stars_received"

  /** The six counters `parse_github_repo_data` keeps per repository list. */
  predicate IsCounterKey(k: string) {
    k == TotalKey || k == ForkedKey || k == OriginalKey || k == WatcherKey || k == SizeKey || k == StarsKey
  }

  /** The value each counter is meant to reach: the count or the field sum it stands for. */
  function CounterValue(repos: seq<Repo>, k: string): int {
    if k == TotalKey then |repos|
    else if k == ForkedKey then ForkCount(repos)
    else if k == OriginalKey then OriginalCount(repos)
    else if k == WatcherKey then WatcherSum(repos)
    else if k == SizeKey then TotalSize(repos)
    else if k == StarsKey then StarSum(repos)
    else 0
  }

  /**
   * The keys the loop has created: a counter exists only once it has been
   * incremented, so the forked (original) counter is absent when no
   * repository is (is not) a fork, and every counter is absent for an empty list.
   */
  function CounterKeys(repos: seq<Repo>): set<string> {
    (if |repos| > 0 then {TotalKey, WatcherKey, SizeKey, StarsKey} else {})
    + (if ForkCount(repos) > 0 then {ForkedKey} else {})
    + (if OriginalCount(repos) > 0 then {OriginalKey} else {})
  }

  /** The counters of `parse_github_repo_data` after its loop, as the defaultdict holds them. */
  function RepoCounters(repos: seq<Repo>): map<string, int> {
    map k | k in CounterKeys(repos) :: CounterValue(repos, k)
  }

  /**
   * Which counters exist after the loop: the total and the sums exactly when
   * there is a repository, the forked (original) count exactly when some
   * repository is (is not) a fork; each holds the value it stands for.
   */
  lemma RepoCountersKeys(repos: seq<Repo>)
    ensures TotalKey in RepoCounters(repos) <==> |repos| > 0
    ensures WatcherKey in RepoCounters(repos) <==> |repos| > 0
    ensures ForkedKey in RepoCounters(repos) <==> exists i :: 0 <= i < |repos| && repos[i].fork
    ensures OriginalKey in RepoCounters(repos) <==> exists i :: 0 <= i < |repos| && !repos[i].fork
    ensures forall k :: k in RepoCounters(repos) ==> IsCounterKey(k) && RepoCounters(repos)[k] == CounterValue(repos, k)
  {
    ForkCountZero(repos);
  }

  /** One loop iteration, in the source's order of updates. */
  function CountRepo(c: map<string, int>, r: Repo): map<string, int> {
    var c1 := c[TotalKey := Lookup(c, TotalKey) + 1];
    var c2 := if r.fork then c1[ForkedKey := Lookup(c1, ForkedKey) + 1]
              else c1[OriginalKey := Lookup(c1, OriginalKey) + 1];
    var c3 := c2[WatcherKey := Lookup(c2, WatcherKey) + r.watchers];
    var c4 := c3[SizeKey := Lookup(c3, SizeKey) + r.size];
    c4[StarsKey := Lookup(c4, StarsKey) + r.stars]
  }

  /** The keys one iteration touches. */
  function StepKeys(r: Repo): set<string> {
    {TotalKey, if r.fork then ForkedKey else OriginalKey, WatcherKey, SizeKey, StarsKey}
  }

  /** What one iteration adds to counter `k`. */
  function StepDelta(r: Repo, k: string): int {
    if k == TotalKey then 1
    else if k == ForkedKey then (if r.fork then 1 else 0)
    else if k == OriginalKey then (if r.fork then 0 else 1)
    else if k == WatcherKey then r.watchers
    else if k == SizeKey then r.size
    else if k == StarsKey then r.stars
    else 0
  }

  lemma CountRepoStep(c: map<string, int>, r: Repo)
    ensures CountRepo(c, r) == map k | k in c.Keys + StepKeys(r) :: Lookup(c, k) + StepDelta(r, k)
  {
  }

  lemma CounterValueSnoc(repos: seq<Repo>, r: Repo, k: string)
    ensures CounterValue(repos + [r], k) == CounterValue(repos, k) + StepDelta(r, k)
  {
    var s := repos + [r];
    assert s[..|s| - 1] == repos;
  }

  /** An absent counter is one whose value is still 0, so reading it as 0 gives the right value. */
  lemma LookupCounters(repos: seq<Repo>, k: string)
    requires IsCounterKey(k)
    ensures Lookup(RepoCounters(repos), k) == CounterValue(repos, k)
  {
    if k !in CounterKeys(repos) && |repos| == 0 {
      assert repos == [];
    }
  }

  /** Counting one more repository moves the counters from those of the prefix to those of the longer list. */
  lemma RepoCountersSnoc(repos: seq<Repo>, r: Repo)
    ensures RepoCounters(repos + [r]) == CountRepo(RepoCounters(repos), r)
  {
    var s := repos + [r];
    var p := RepoCounters(repos);
    CountRepoStep(p, r);
    CounterKeysSnoc(repos, r);
    var want := map k | k in p.Keys + StepKeys(r) :: Lookup(p, k) + StepDelta(r, k);
    forall k | k in CounterKeys(s)
      ensures CounterValue(s, k) == want[k]
    {
      CounterValueSnoc(repos, r, k);
      LookupCounters(repos, k);
    }
    assert RepoCounters(s) == want;
  }

  lemma CounterKeysSnoc(repos: seq<Repo>, r: Repo)
    ensures CounterKeys(repos + [r]) == CounterKeys(repos) + StepKeys(r)
  {
    var s := repos + [r];
    assert s[..|s| - 1] == repos;
    assert ForkCount(s) == ForkCount(repos) + (if r.fork then 1 else 0);
    assert OriginalCount(s) == OriginalCount(repos) + (if r.fork then 0 else 1);
  }

  /**
   * Read through a defaultdict (absent counters are 0), the counters are the
   * repository count, the fork and original counts and the three field sums,
   * and the total is the sum of forked and original.
   */
  lemma CountersRead(repos: seq<Repo>)
    ensures Lookup(RepoCounters(repos), TotalKey) == |repos|
    ensures Lookup(RepoCounters(repos), ForkedKey) == ForkCount(repos)
    ensures Lookup(RepoCounters(repos), OriginalKey) == OriginalCount(repos)
    ensures Lookup(RepoCounters(repos), WatcherKey) == WatcherSum(repos)
    ensures Lookup(RepoCounters(repos), SizeKey) == TotalSize(repos)
    ensures Lookup(RepoCounters(repos), StarsKey) == StarSum(repos)
    ensures Lookup(RepoCounters(repos), TotalKey)
         == Lookup(RepoCounters(repos), ForkedKey) + Lookup(RepoCounters(repos), OriginalKey)
  {
    ForkPartition(repos);
    if repos == [] {
      assert RepoCounters(repos) == map[];
    }
  }

  /** The body of the repository loop for one repository: its five counter updates, in the source's order. */
  method CountRepoInto(output: Counter, repo: Repo)
    modifies output
    ensures output.counts == CountRepo(old(output.counts), repo)
  {
    CountKindInto(output, repo);
    SumFieldsInto(output, repo);
  }

  /** The first two updates: the total, then the forked or the original count. */
  method CountKindInto(output: Counter, repo: Repo)
    modifies output
    ensures var c1 := old(output.counts)[TotalKey := Lookup(old(output.counts), TotalKey) + 1];
      output.counts == if repo.fork then c1[ForkedKey := Lookup(c1, ForkedKey) + 1]
                       else c1[OriginalKey := Lookup(c1, OriginalKey) + 1]
  {
    output.Add(TotalKey, 1);
    if repo.fork {
      output.Add(ForkedKey, 1);
    } else {
      output.Add(OriginalKey, 1);
    }
  }

  /** The last three updates: the watcher, size and star sums. */
  method SumFieldsInto(output: Counter, repo: Repo)
    modifies output
    ensures var c3 := old(output.counts)[WatcherKey := Lookup(old(output.counts), WatcherKey) + repo.watchers];
      var c4 := c3[SizeKey := Lookup(c3, SizeKey) + repo.size];
      output.counts == c4[StarsKey := Lookup(c4, StarsKey) + repo.stars]
  {
    output.Add(WatcherKey, repo.watchers);
    output.Add(SizeKey, repo.size);
    output.Add(StarsKey, repo.stars);
  }

  lemma DecodeFails(records: seq<Json>, i: nat)
    requires i < |records| && (DecodeRepo(records[i]).None? || DecodeTopics(records[i]).None?)
    ensures DecodeRepos(records).Failure? || DecodeTopicLists(records).Failure?
  {
  }

  lemma DecodeSucceeds(records: seq<Json>, repos: seq<Repo>, topicLists: seq<seq<string>>)
    requires |repos| == |records| && |topicLists| == |records|
    requires forall j :: 0 <= j < |records| ==> DecodeRepo(records[j]) == Some(repos[j])
    requires forall j :: 0 <= j < |records| ==> DecodeTopics(records[j]) == Some(topicLists[j])
    ensures DecodeRepos(records) == Success(repos) && DecodeTopicLists(records) == Success(topicLists)
  {
    ReposDecoded(records, repos);
    TopicListsDecoded(records, topicLists);
  }

  lemma ReposDecoded(records: seq<Json>, repos: seq<Repo>)
    requires |repos| == |records|
    requires forall j :: 0 <= j < |records| ==> DecodeRepo(records[j]) == Some(repos[j])
    ensures DecodeRepos(records) == Success(repos)
  {
    var d := DecodeRepos(records);
    assert d.Success?;
    assert forall j :: 0 <= j < |records| ==> d.value[j] == repos[j];
    assert d.value == repos;
  }

  lemma TopicListsDecoded(records: seq<Json>, topicLists: seq<seq<string>>)
    requires |topicLists| == |records|
    requires forall j :: 0 <= j < |records| ==> DecodeTopics(records[j]) == Some(topicLists[j])
    ensures DecodeTopicLists(records) == Success(topicLists)
  {
    var d := DecodeTopicLists(records);
    assert d.Success?;
    assert forall j :: 0 <= j < |records| ==> d.value[j] == topicLists[j];
    assert d.value == topicLists;
  }

  // ---------------------------------------------------------------------
  // Starred and user parsers (identical in the three REST files)
  // ---------------------------------------------------------------------

  const StarsGivenKey: string := "github_stars_given"

  /** `parse_github_starred_data`: the number of starred items. */
  function ParseStarredData(starred: seq<Json>): (r: map<string, Json>)
    ensures r.Keys == {StarsGivenKey} && r[StarsGivenKey] == Int(|starred|)
  {
    map[StarsGivenKey := Int(|starred|)]
  }

  /** Number of records on the pages answering `sent`. */
  function PageRecordCount(fetch: Request -> Response, sent: seq<Request>): nat
    decreases |sent|
  {
    if sent == [] then 0
    else (if fetch(sent[0]).body.Array? then |fetch(sent[0]).body.items| else 0) + PageRecordCount(fetch, sent[1..])
  }

  lemma {:induction false} RecordsLength(fetch: Request -> Response, sent: seq<Request>)
    ensures |Records(fetch, sent)| == PageRecordCount(fetch, sent)
    decreases |sent|
  {
    if sent != [] {
      RecordsLength(fetch, sent[1..]);
    }
  }

  /** The stars given are the number of starred items over every page the listing returned. */
  lemma StarsGivenCountsAllPages(fetch: Request -> Response, username: string, fuel: nat)
    ensures var p := Paginate(fetch, StarredUrl(username), None, fuel);
      p.result.Success? ==>
        ParseStarredData(p.result.value) == map[StarsGivenKey := Int(PageRecordCount(fetch, p.sent))]
  {
    var p := Paginate(fetch, StarredUrl(username), None, fuel);
    PaginateShape(fetch, StarredUrl(username), None, fuel);
    RecordsLength(fetch, p.sent);
  }

  /**
   * `parse_github_user_data`: project `login`, `url`, `followers` and
   * `following`, renamed; a profile lacking any of them raises.
   */
  function ParseUserData(user: Json): (r: Result<map<string, Json>>)
    ensures r.Success? <==> (user.Object?
      && "login" in user.fields && "url" in user.fields
      && "followers" in user.fields && "following" in user.fields)
    ensures r.Success? ==>
      && r.value.Keys == {"github_username", "github_user_url", "github_followers", "github_following"}
      && r.value["github_username"] == user.fields["login"]
      && r.value["github_user_url"] == user.fields["url"]
      && r.value["github_followers"] == user.fields["followers"]
      && r.value["github_following"] == user.fields["following"]
  {
    var login :- Field(user, "login");
    var url :- Field(user, "url");
    var followers :- Field(user, "followers");
    var following :- Field(user, "following");
    Success(map[
      "github_username" := login,
      "github_user_url" := url,
      "github_followers" := followers,
      "github_following" := following])
  }

  // ---------------------------------------------------------------------
  // Per-repository language fetch
  // ---------------------------------------------------------------------

  /**
   * The language list comprehension: for each record (app/github_v3.py and
   * github_v3.py skip records equal to `{}`, app.py does not), GET its
   * `languages_url` and keep the keys of the decoded dict. There is no
   * `raise_for_status` here: whatever dict the upstream answers with is
   * taken as the language map.
   */
  function LanguageList(fetch: Request -> Response, records: seq<Json>, skipEmpty: bool)
    : (f: Fetched<seq<set<string>>>)
    ensures |f.sent| <= |KeptRecords(records, skipEmpty)|
    decreases |records|
  {
    if records == [] then Fetched(Success([]), [])
    else
      var prev := LanguageList(fetch, records[..|records| - 1], skipEmpty);
      var item := records[|records| - 1];
      if prev.result.Failure? then prev
      else if skipEmpty && item == Object(map[]) then prev
      else if !(item.Object? && "languages_url" in item.fields && item.fields["languages_url"].Str?) then
        Fetched(Failure(SchemaMismatch), prev.sent)
      else
        var req := Request(item.fields["languages_url"].s, None, None);
        var body := fetch(req).body;
        if body.Object? then Fetched(Success(prev.result.value + [body.fields.Keys]), prev.sent + [req])
        else Fetched(Failure(SchemaMismatch), prev.sent + [req])
  }

  /** A record equal to `{}` is skipped when `skipEmpty`: no request, no key set. */
  lemma LanguageListSkipsEmptyRecords(fetch: Request -> Response, records: seq<Json>)
    ensures LanguageList(fetch, records + [Object(map[])], true) == LanguageList(fetch, records, true)
  {
    assert (records + [Object(map[])])[..|records|] == records;
  }

  /** Without skipping, a record equal to `{}` has no `languages_url` and the comprehension raises. */
  lemma LanguageListFailsOnEmptyRecord(fetch: Request -> Response, records: seq<Json>)
    ensures LanguageList(fetch, records + [Object(map[])], false).result.Failure?
  {
    assert (records + [Object(map[])])[..|records|] == records;
  }

  /** The records the v3 comprehension keeps: those that are not `{}`, in order. */
  function NonEmptyRecords(records: seq<Json>): (kept: seq<Json>)
    ensures |kept| <= |records|
    ensures Object(map[]) !in kept
    ensures forall x :: x != Object(map[]) ==> multiset(kept)[x] == multiset(records)[x]
    decreases |records|
  {
    if records == [] then []
    else
      var init := NonEmptyRecords(records[..|records| - 1]);
      var last := records[|records| - 1];
      assert records == records[..|records| - 1] + [last];
      if last == Object(map[]) then init else init + [last]
  }

  /**
   * The filter keeps order: filtering a concatenation concatenates the
   * filtered parts. With the one-record case, this fixes every result.
   */
  lemma {:induction false} NonEmptyRecordsAppend(a: seq<Json>, b: seq<Json>)
    ensures NonEmptyRecords(a + b) == NonEmptyRecords(a) + NonEmptyRecords(b)
    ensures forall x :: NonEmptyRecords([x]) == if x == Object(map[]) then [] else [x]
    decreases |b|
  {
    forall x ensures NonEmptyRecords([x]) == if x == Object(map[]) then [] else [x] {
      assert [x][..0] == [];
    }
    if b == [] {
      assert a + b == a;
    } else {
      var init := b[..|b| - 1];
      var last := b[|b| - 1];
      assert (a + b)[..|a + b| - 1] == a + init;
      assert (a + b)[|a + b| - 1] == last;
      NonEmptyRecordsAppend(a, init);
    }
  }

  /** The records a language fetch requests, in order: every record, or only those that are not `{}`. */
  function KeptRecords(records: seq<Json>, skipEmpty: bool): seq<Json> {
    if skipEmpty then NonEmptyRecords(records) else records
  }

  /**
   * On success there is one key set per record kept; request i is for the
   * `languages_url` of the i-th kept record, and key set i is the key set of
   * the dict answering it.
   */
  lemma LanguageListShape(fetch: Request -> Response, records: seq<Json>, skipEmpty: bool)
    ensures var f := LanguageList(fetch, records, skipEmpty);
      var kept := KeptRecords(records, skipEmpty);
      f.result.Success? ==>
        && |f.result.value| == |f.sent| == |kept|
        && (forall i :: 0 <= i < |kept| ==>
             kept[i].Object? && "languages_url" in kept[i].fields && kept[i].fields["languages_url"].Str?
             && f.sent[i] == Request(kept[i].fields["languages_url"].s, None, None))
        && (forall i :: 0 <= i < |f.sent| ==>
             fetch(f.sent[i]).body.Object? && f.result.value[i] == fetch(f.sent[i]).body.fields.Keys)
  {
    LanguageListRequests(fetch, records, skipEmpty);
    LanguageListBodies(fetch, records, skipEmpty);
  }

  /** On success, request i is for the `languages_url` of the i-th kept record. */
  lemma {:induction false} LanguageListRequests(fetch: Request -> Response, records: seq<Json>, skipEmpty: bool)
    ensures var f := LanguageList(fetch, records, skipEmpty);
      var kept := KeptRecords(records, skipEmpty);
      f.result.Success? ==>
        && |f.sent| == |kept|
        && forall i :: 0 <= i < |kept| ==>
             kept[i].Object? && "languages_url" in kept[i].fields && kept[i].fields["languages_url"].Str?
             && f.sent[i] == Request(kept[i].fields["languages_url"].s, None, None)
    decreases |records|
  {
    if records != [] {
      var init := records[..|records| - 1];
      LanguageListRequests(fetch, init, skipEmpty);
      var item := records[|records| - 1];
      var f := LanguageList(fetch, records, skipEmpty);
      if f.result.Success? && !(skipEmpty && item == Object(map[])) {
        assert KeptRecords(records, skipEmpty) == KeptRecords(init, skipEmpty) + [item];
        assert f.sent == LanguageList(fetch, init, skipEmpty).sent + [Request(item.fields["languages_url"].s, None, None)];
      }
    }
  }

  /** On success, there is one key set per request, the key set of the dict answering it. */
  lemma {:induction false} LanguageListBodies(fetch: Request -> Response, records: seq<Json>, skipEmpty: bool)
    ensures var f := LanguageList(fetch, records, skipEmpty);
      f.result.Success? ==>
        && |f.result.value| == |f.sent|
        && forall i :: 0 <= i < |f.sent| ==>
             fetch(f.sent[i]).body.Object? && f.result.value[i] == fetch(f.sent[i]).body.fields.Keys
    decreases |records|
  {
    if records != [] {
      LanguageListBodies(fetch, records[..|records| - 1], skipEmpty);
    }
  }
}

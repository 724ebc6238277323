/**
 * The GitHub REST (v3) strategy of app/github_v3.py.  github_v3.py is an
 * earlier copy of the same pipeline, line for line (its paginator, parsers
 * and `github_v3_main` differ only in names and comments), so it is
 * modelled by the same members.
 */
module GithubV3 {
  import opened Json
  import opened Paging
  import opened Counting
  import opened RestRecords

  const TopicsKey: string := "github_topic_list"
  const LanguagesKey: string := "github_repo_languages"

  /** `get_github_repo_data`: the paginated repository listing, with the topics preview header. */
  function RepoFetch(fetch: Request -> Response, username: string, fuel: nat): (f: Fetched<seq<Json>>)
    ensures fuel > 0 ==> |f.sent| >= 1 && f.sent[0].url == ReposUrl(username)
    ensures forall i :: 0 <= i < |f.sent| ==> f.sent[i].perPage == Some(PerPage) && f.sent[i].accept == Some(MercyPreview)
  {
    PaginateHeaders(fetch, ReposUrl(username), Some(MercyPreview), fuel);
    Paginate(fetch, ReposUrl(username), Some(MercyPreview), fuel)
  }

  /** `get_github_starred_data`: the paginated starred listing (app.py has the same function). */
  function StarredFetch(fetch: Request -> Response, username: string, fuel: nat): (f: Fetched<seq<Json>>)
    ensures fuel > 0 ==> |f.sent| >= 1 && f.sent[0].url == StarredUrl(username)
    ensures forall i :: 0 <= i < |f.sent| ==> f.sent[i].perPage == Some(PerPage) && f.sent[i].accept == None
  {
    PaginateHeaders(fetch, StarredUrl(username), None, fuel);
    Paginate(fetch, StarredUrl(username), None, fuel)
  }

  /**
   * The dict `parse_github_repo_data` returns: the counters that were
   * incremented, converted to a plain dict, plus the topic tally, which is
   * always present.
   */
  function RepoSummary(repos: seq<Repo>, topicLists: seq<seq<string>>): map<string, Json> {
    IntsJson(RepoCounters(repos))[TopicsKey := TallyJson(Tally(Flatten(topicLists)))]
  }

  /** The inner topic loop: one increment per topic of the repository. */
  method CountTopicsInto(topicCounter: Counter, ghost seen: seq<string>, topics: seq<string>)
    requires topicCounter.counts == Tally(seen)
    modifies topicCounter
    ensures topicCounter.counts == Tally(seen + topics)
  {
    assert seen + topics[..0] == seen;
    for j := 0 to |topics|
      invariant topicCounter.counts == Tally(seen + topics[..j])
    {
      var topic := topics[j];
      assert seen + topics[..j + 1] == (seen + topics[..j]) + [topic];
      TallySnoc(seen + topics[..j], topic);
      BumpOne(topicCounter.counts, topic);
      topicCounter.Add(topic, 1);
    }
    assert topics[..|topics|] == topics;
  }

  /**
   * The body of the loop of `parse_github_repo_data` for one record: the
   * repository's counters, then its topics.  It fails when either field
   * set is missing or mistyped.
   */
  method CountRecordInto(output: Counter, topicCounter: Counter, ghost repos: seq<Repo>,
                         ghost topicLists: seq<seq<string>>, record: Json)
    returns (ok: bool, ghost repo: Repo, ghost topics: seq<string>)
    requires output != topicCounter
    requires output.counts == RepoCounters(repos)
    requires topicCounter.counts == Tally(Flatten(topicLists))
    modifies output, topicCounter
    ensures ok <==> DecodeRepo(record).Some? && DecodeTopics(record).Some?
    ensures ok ==> DecodeRepo(record) == Some(repo) && DecodeTopics(record) == Some(topics)
    ensures ok ==> output.counts == RepoCounters(repos + [repo])
    ensures ok ==> topicCounter.counts == Tally(Flatten(topicLists + [topics]))
  {
    var decoded := DecodeRepo(record);
    if decoded.None? {
      return false, Repo(false, 0, 0, 0), [];
    }
    repo := decoded.value;
    RepoCountersSnoc(repos, repo);
    CountRepoInto(output, decoded.value);
    var decodedTopics := DecodeTopics(record);
    if decodedTopics.None? {
      return false, repo, [];
    }
    topics := decodedTopics.value;
    CountTopicsInto(topicCounter, Flatten(topicLists), decodedTopics.value);
    FlattenSnoc(topicLists, topics);
    ok := true;
  }

  /**
   * `parse_github_repo_data`: one pass over the records, counting every
   * repository, forks and originals, summing watchers, sizes and stars, and
   * counting every topic of every repository.
   */
  method ParseRepoData(records: seq<Json>) returns (r: Result<map<string, Json>>)
    ensures r.Success? <==> DecodeRepos(records).Success? && DecodeTopicLists(records).Success?
    ensures r.Success? ==> r.value == RepoSummary(DecodeRepos(records).value, DecodeTopicLists(records).value)
  {
    var output := new Counter();
    var topicCounter := new Counter();
    ghost var repos: seq<Repo> := [];
    ghost var topicLists: seq<seq<string>> := [];
    for i := 0 to |records|
      invariant |repos| == i && |topicLists| == i
      invariant forall j :: 0 <= j < i ==> DecodeRepo(records[j]) == Some(repos[j])
      invariant forall j :: 0 <= j < i ==> DecodeTopics(records[j]) == Some(topicLists[j])
      invariant output.counts == RepoCounters(repos)
      invariant topicCounter.counts == Tally(Flatten(topicLists))
    {
      var ok, repo, topics := CountRecordInto(output, topicCounter, repos, topicLists, records[i]);
      if !ok {
        DecodeFails(records, i);
        return Failure(SchemaMismatch);
      }
      repos := repos + [repo];
      topicLists := topicLists + [topics];
    }
    DecodeSucceeds(records, repos, topicLists);
    r := Success(IntsJson(output.counts)[TopicsKey := TallyJson(topicCounter.counts)]);
  }

  /**
   * `parse_github_language_data`: fetch the language map of every record
   * that is not `{}`, then add 1 to a language's counter for every map that
   * has it as a key.
   */
  method ParseLanguageData(fetch: Request -> Response, records: seq<Json>) returns (r: Fetched<map<string, Json>>)
    ensures r.sent == LanguageList(fetch, records, true).sent
    ensures r.result.Success? <==> LanguageList(fetch, records, true).result.Success?
    ensures r.result.Success? ==>
      r.result.value == map[LanguagesKey := TallyJson(KeyTally(LanguageList(fetch, records, true).result.value))]
  {
    var list := LanguageList(fetch, records, true);
    if list.result.Failure? {
      return Fetched(Failure(list.result.error), list.sent);
    }
    var languageMaps := list.result.value;
    var counter := new Counter();
    for i := 0 to |languageMaps|
      invariant counter.counts == KeyTally(languageMaps[..i])
    {
      assert languageMaps[..i + 1] == languageMaps[..i] + [languageMaps[i]];
      KeyTallySnoc(languageMaps[..i], languageMaps[i]);
      counter.IncrementKeys(languageMaps[i]);
    }
    assert languageMaps[..|languageMaps|] == languageMaps;
    r := Fetched(Success(map[LanguagesKey := TallyJson(counter.counts)]), list.sent);
  }

  // ---------------------------------------------------------------------
  // github_v3_main
  // ---------------------------------------------------------------------

  /**
   * Every stage of `github_v3_main` succeeds: the user fetch and its
   * projection, the repository listing and its parse, the three counter
   * lookups (which need at least one fork and at least one original
   * repository, since absent counters are absent keys), the language
   * fetches and the starred listing.
   */
  ghost predicate V3Succeeds(fetch: Request -> Response, username: string, fuel: nat) {
    && FetchUser(fetch, username).result.Success?
    && ParseUserData(FetchUser(fetch, username).result.value).Success?
    && RepoFetch(fetch, username, fuel).result.Success?
    && var records := RepoFetch(fetch, username, fuel).result.value;
    && DecodeRepos(records).Success?
    && DecodeTopicLists(records).Success?
    && ForkCount(DecodeRepos(records).value) > 0
    && OriginalCount(DecodeRepos(records).value) > 0
    && LanguageList(fetch, records, true).result.Success?
    && StarredFetch(fetch, username, fuel).result.Success?
  }

  /** The eight keys of `github_v3_main`'s output, from the user's two counts and the decoded listings. */
  function SummaryOf(followers: Json, following: Json, repos: seq<Repo>, topicLists: seq<seq<string>>,
                     languageMaps: seq<set<string>>, starsGiven: int): (s: map<string, Json>)
    ensures s.Keys == {"followers", "following", "forkedRespositories", "originalRespositories",
                       "totalRepositories", "topics", "languages", "starsGiven"}
    ensures s["forkedRespositories"].Int? && s["originalRespositories"].Int?
    ensures s["totalRepositories"] == Int(s["forkedRespositories"].i + s["originalRespositories"].i)
  {
    ForkPartition(repos);
    map[
      "followers" := followers,
      "following" := following,
      "forkedRespositories" := Int(ForkCount(repos)),
      "originalRespositories" := Int(OriginalCount(repos)),
      "totalRepositories" := Int(|repos|),
      "topics" := TallyJson(Tally(Flatten(topicLists))),
      "languages" := TallyJson(KeyTally(languageMaps)),
      "starsGiven" := Int(starsGiven)]
  }

  /** The summary `github_v3_main` is meant to return, from the reference counts and tallies. */
  ghost function V3Summary(fetch: Request -> Response, username: string, fuel: nat): map<string, Json>
    requires V3Succeeds(fetch, username, fuel)
  {
    var profile := FetchUser(fetch, username).result.value;
    var records := RepoFetch(fetch, username, fuel).result.value;
    SummaryOf(profile.fields["followers"], profile.fields["following"], DecodeRepos(records).value,
              DecodeTopicLists(records).value, LanguageList(fetch, records, true).result.value,
              |StarredFetch(fetch, username, fuel).result.value|)
  }

  /** What the lookups of `github_v3_main` find in the repository summary. */
  lemma SummaryLookups(repos: seq<Repo>, topicLists: seq<seq<string>>)
    ensures var s := RepoSummary(repos, topicLists);
      && (ForkedKey in s <==> ForkCount(repos) > 0)
      && (OriginalKey in s <==> OriginalCount(repos) > 0)
      && (ForkedKey in s ==> TotalKey in s)
      && (ForkedKey in s ==> s[ForkedKey] == Int(ForkCount(repos)))
      && (OriginalKey in s ==> s[OriginalKey] == Int(OriginalCount(repos)))
      && (TotalKey in s ==> s[TotalKey] == Int(|repos|))
      && s[TopicsKey] == TallyJson(Tally(Flatten(topicLists)))
  {
    assert TopicsKey != TotalKey && TopicsKey != ForkedKey && TopicsKey != OriginalKey;
  }

  /** The user stage of `github_v3_main` succeeds: the profile is fetched and has the four keys. */
  predicate UserStageOk(fetch: Request -> Response, username: string) {
    FetchUser(fetch, username).result.Success? && ParseUserData(FetchUser(fetch, username).result.value).Success?
  }

  /** The repository block of `github_v3_main` succeeds: every record decodes, with a fork and an original. */
  predicate RepoStageOk(records: seq<Json>) {
    && DecodeRepos(records).Success? && DecodeTopicLists(records).Success?
    && ForkCount(DecodeRepos(records).value) > 0 && OriginalCount(DecodeRepos(records).value) > 0
  }

  /**
   * The repository block of `github_v3_main`: parse the records and copy
   * the forked, original and total counters and the topic tally into the
   * output.  A plain dict takes the place of the defaultdict there, so a
   * counter that was never incremented is a missing key and the lookup fails.
   */
  method AddRepoSummary(output: map<string, Json>, records: seq<Json>) returns (r: Result<map<string, Json>>)
    ensures r.Success? <==> RepoStageOk(records)
    ensures r.Success? ==>
      var repos := DecodeRepos(records).value;
      r.value == output["forkedRespositories" := Int(ForkCount(repos))]
                       ["originalRespositories" := Int(OriginalCount(repos))]
                       ["totalRepositories" := Int(|repos|)]
                       ["topics" := TallyJson(Tally(Flatten(DecodeTopicLists(records).value)))]
  {
    var parsedRepo := ParseRepoData(records);
    if parsedRepo.Failure? {
      return Failure(parsedRepo.error);
    }
    SummaryLookups(DecodeRepos(records).value, DecodeTopicLists(records).value);
    if ForkedKey !in parsedRepo.value || OriginalKey !in parsedRepo.value || TotalKey !in parsedRepo.value {
      return Failure(SchemaMismatch);
    }
    var updated := output["forkedRespositories" := parsedRepo.value[ForkedKey]];
    updated := updated["originalRespositories" := parsedRepo.value[OriginalKey]];
    updated := updated["totalRepositories" := parsedRepo.value[TotalKey]];
    updated := updated["topics" := parsedRepo.value[TopicsKey]];
    r := Success(updated);
  }

  /**
   * `github_v3_main`: user profile first, then repositories, their
   * languages, and the starred listing; the output is filled key by key
   * and any failing stage aborts the run.
   */
  method GithubV3Main(fetch: Request -> Response, username: string, fuel: nat)
    returns (r: Result<map<string, Json>>, sent: seq<Request>)
    ensures |sent| >= 1 && sent[0] == UserRequest(username)
    ensures FetchUser(fetch, username).result.Failure? ==> r.Failure? && sent == [UserRequest(username)]
    ensures FetchUser(fetch, username).result.Success? && ParseUserData(FetchUser(fetch, username).result.value).Failure?
            ==> r.Failure? && sent == [UserRequest(username)]
    ensures UserStageOk(fetch, username) && RepoFetch(fetch, username, fuel).result.Failure? ==>
      r.Failure? && sent == [UserRequest(username)] + RepoFetch(fetch, username, fuel).sent
    ensures UserStageOk(fetch, username) && RepoFetch(fetch, username, fuel).result.Success?
            && !RepoStageOk(RepoFetch(fetch, username, fuel).result.value) ==>
      r.Failure? && sent == [UserRequest(username)] + RepoFetch(fetch, username, fuel).sent
    ensures UserStageOk(fetch, username) && RepoFetch(fetch, username, fuel).result.Success?
            && RepoStageOk(RepoFetch(fetch, username, fuel).result.value)
            && LanguageList(fetch, RepoFetch(fetch, username, fuel).result.value, true).result.Failure? ==>
      r.Failure? && sent == [UserRequest(username)] + RepoFetch(fetch, username, fuel).sent
                            + LanguageList(fetch, RepoFetch(fetch, username, fuel).result.value, true).sent
    ensures r.Success? <==> V3Succeeds(fetch, username, fuel)
    ensures r.Success? ==> r.value == V3Summary(fetch, username, fuel)
    ensures r.Success? ==>
      var records := RepoFetch(fetch, username, fuel).result.value;
      sent == [UserRequest(username)] + RepoFetch(fetch, username, fuel).sent
              + LanguageList(fetch, records, true).sent + StarredFetch(fetch, username, fuel).sent
  {
    var output: map<string, Json> := map[];
    var user := FetchUser(fetch, username);
    sent := user.sent;
    if user.result.Failure? {
      return Failure(user.result.error), sent;
    }
    var parsedUser := ParseUserData(user.result.value);
    if parsedUser.Failure? {
      return Failure(parsedUser.error), sent;
    }
    output := output["followers" := parsedUser.value["github_followers"]];
    output := output["following" := parsedUser.value["github_following"]];

    var repoData := RepoFetch(fetch, username, fuel);
    sent := sent + repoData.sent;
    if repoData.result.Failure? {
      return Failure(repoData.result.error), sent;
    }
    var withRepos := AddRepoSummary(output, repoData.result.value);
    if withRepos.Failure? {
      return Failure(withRepos.error), sent;
    }
    output := withRepos.value;

    var languages := ParseLanguageData(fetch, repoData.result.value);
    sent := sent + languages.sent;
    if languages.result.Failure? {
      return Failure(languages.result.error), sent;
    }
    output := output["languages" := languages.result.value[LanguagesKey]];

    var starred := StarredFetch(fetch, username, fuel);
    sent := sent + starred.sent;
    if starred.result.Failure? {
      return Failure(starred.result.error), sent;
    }
    output := output["starsGiven" := ParseStarredData(starred.result.value)[StarsGivenKey]];
    r := Success(output);
  }

  // ---------------------------------------------------------------------
  // Properties of the summary
  // ---------------------------------------------------------------------

  /** In a successful run, the total is the sum of the forked and original counts. */
  lemma V3TotalIsForkedPlusOriginal(fetch: Request -> Response, username: string, fuel: nat)
    requires V3Succeeds(fetch, username, fuel)
    ensures var s := V3Summary(fetch, username, fuel);
      s["totalRepositories"].i == s["forkedRespositories"].i + s["originalRespositories"].i
  {
  }

  /**
   * The repository parse keeps a counter key only once it was incremented:
   * the topic tally is always there, the total and the sums exactly when
   * there is a repository, the forked (original) count exactly when some
   * repository is (is not) a fork; each present counter holds its count or sum.
   */
  lemma RepoSummaryKeys(repos: seq<Repo>, topicLists: seq<seq<string>>)
    ensures var s := RepoSummary(repos, topicLists);
      && TopicsKey in s
      && (TotalKey in s <==> |repos| > 0)
      && (WatcherKey in s <==> |repos| > 0)
      && (ForkedKey in s <==> exists i :: 0 <= i < |repos| && repos[i].fork)
      && (OriginalKey in s <==> exists i :: 0 <= i < |repos| && !repos[i].fork)
      && (forall k :: k in s && k != TopicsKey ==> IsCounterKey(k) && s[k] == Int(CounterValue(repos, k)))
  {
    RepoCountersKeys(repos);
    assert !IsCounterKey(TopicsKey);
  }

  /** An empty repository list yields the empty topic tally and nothing else. */
  lemma RepoSummaryEmpty()
    ensures RepoSummary([], []) == map[TopicsKey := Object(map[])]
  {
    assert RepoCounters([]) == map[];
    assert Tally(Flatten<string>([])) == map[];
  }

  /**
   * Each topic's count is its number of occurrences across the repositories'
   * topic lists; one more repository adds exactly its own occurrences, so a
   * repository without topics adds nothing.
   */
  lemma TopicCountsOccurrences(topicLists: seq<seq<string>>, more: seq<string>, topic: string)
    ensures topic in Tally(Flatten(topicLists)) <==> topic in Flatten(topicLists)
    ensures Lookup(Tally(Flatten(topicLists)), topic) == CountOf(topic, Flatten(topicLists))
    ensures Lookup(Tally(Flatten(topicLists + [more])), topic)
         == Lookup(Tally(Flatten(topicLists)), topic) + CountOf(topic, more)
  {
    PerRecordContribution(topic, topicLists, more);
  }

  /**
   * With no fork among the repositories, `parse_github_repo_data` has no
   * forked counter and the lookup in `github_v3_main` fails, so the whole
   * run fails even though every fetch succeeded.
   */
  lemma NoForksMeansNoSummary(fetch: Request -> Response, username: string, fuel: nat)
    requires RepoFetch(fetch, username, fuel).result.Success?
    requires DecodeRepos(RepoFetch(fetch, username, fuel).result.value).Success?
    requires forall repo :: repo in DecodeRepos(RepoFetch(fetch, username, fuel).result.value).value ==> !repo.fork
    ensures !V3Succeeds(fetch, username, fuel)
  {
    var repos := DecodeRepos(RepoFetch(fetch, username, fuel).result.value).value;
    ForkCountZero(repos);
    assert forall i :: 0 <= i < |repos| ==> repos[i] in repos;
  }

  /** The language tally counts each language once per kept record whose map has it; the counts add up to the map sizes. */
  lemma LanguageCountsRepos(fetch: Request -> Response, records: seq<Json>, language: string)
    requires LanguageList(fetch, records, true).result.Success?
    ensures var maps := LanguageList(fetch, records, true).result.value;
      && Lookup(KeyTally(maps), language) == CountHaving(language, maps)
      && (language in KeyTally(maps) <==> exists i :: 0 <= i < |maps| && language in maps[i])
      && Total(KeyTally(maps)) == SizeSum(maps)
  {
    var maps := LanguageList(fetch, records, true).result.value;
    KeyTallyMeaning(maps, language);
    KeyTallyTotal(maps);
  }

  /** A kept record whose language map is empty contributes nothing to the tally. */
  lemma EmptyLanguageMapAddsNothing(maps: seq<set<string>>)
    ensures KeyTally(maps + [{}]) == KeyTally(maps)
  {
    KeyTallySnoc(maps, {});
    BumpEmpty(KeyTally(maps));
  }
}

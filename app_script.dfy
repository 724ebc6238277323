/**
 * The stand-alone script app.py: the same REST upstream as the GitHub v3
 * strategy, without authentication or the topics preview header, one
 * output per `mode`, and two differences in the parsers: the repository
 * counters come back as the `defaultdict` itself, and a repository whose
 * language map is empty is counted under the language "unknown".
 */
module App {
  import opened Json
  import opened Paging
  import opened Counting
  import opened RestRecords

  // app.py repeats the key and the starred fetch of app/github_v3.py; the
  // model keeps one copy per source file, so each module reads as its file.
  const LanguagesKey: string := "github_repo_languages"

  /** The language an empty language map is counted under. */
  const UnknownLanguage: string := "unknown"

  /** `get_github_repo_data`: the paginated repository listing, no extra header. */
  function RepoFetch(fetch: Request -> Response, username: string, fuel: nat): (f: Fetched<seq<Json>>)
    ensures fuel > 0 ==> |f.sent| >= 1 && f.sent[0].url == ReposUrl(username)
    ensures forall i :: 0 <= i < |f.sent| ==> f.sent[i].perPage == Some(PerPage) && f.sent[i].accept == None
  {
    PaginateHeaders(fetch, ReposUrl(username), None, fuel);
    Paginate(fetch, ReposUrl(username), None, fuel)
  }

  /** `get_github_starred_data`: the paginated starred listing (the same as in app/github_v3.py). */
  function StarredFetch(fetch: Request -> Response, username: string, fuel: nat): (f: Fetched<seq<Json>>)
    ensures fuel > 0 ==> |f.sent| >= 1 && f.sent[0].url == StarredUrl(username)
    ensures forall i :: 0 <= i < |f.sent| ==> f.sent[i].perPage == Some(PerPage) && f.sent[i].accept == None
  {
    PaginateHeaders(fetch, StarredUrl(username), None, fuel);
    Paginate(fetch, StarredUrl(username), None, fuel)
  }

  /** The keys counted for one language map: its own keys, or "unknown" when it has none. */
  function Label(keys: set<string>): (r: set<string>)
    ensures r != {}
  {
    if keys == {} then {UnknownLanguage} else keys
  }

  /** Each language map replaced by the keys it is counted under. */
  function Labelled(ks: seq<set<string>>): (r: seq<set<string>>)
    ensures |r| == |ks|
    decreases |ks|
  {
    if ks == [] then [] else Labelled(ks[..|ks| - 1]) + [Label(ks[|ks| - 1])]
  }

  /** Map i of the labelled sequence is the label of map i. */
  lemma {:induction false} LabelledElementwise(ks: seq<set<string>>)
    ensures forall i :: 0 <= i < |ks| ==> Labelled(ks)[i] == Label(ks[i])
    decreases |ks|
  {
    if ks != [] {
      var front := ks[..|ks| - 1];
      LabelledElementwise(front);
      assert forall i :: 0 <= i < |front| ==> front[i] == ks[i];
    }
  }

  lemma LabelledSnoc(ks: seq<set<string>>, keys: set<string>)
    ensures Labelled(ks + [keys]) == Labelled(ks) + [Label(keys)]
  {
    assert (ks + [keys])[..|ks + [keys]| - 1] == ks;
  }

  /** Number of empty language maps. */
  function EmptyCount(ks: seq<set<string>>): (n: nat)
    ensures n <= |ks|
    ensures n == 0 <==> forall i :: 0 <= i < |ks| ==> ks[i] != {}
    decreases |ks|
  {
    if ks == [] then 0
    else
      var front := ks[..|ks| - 1];
      assert forall i :: 0 <= i < |front| ==> front[i] == ks[i];
      EmptyCount(front) + (if ks[|ks| - 1] == {} then 1 else 0)
  }

  /** The body of the counting loop for one language map. */
  method CountLanguageMap(counter: Counter, keys: set<string>)
    modifies counter
    ensures counter.counts == Bump(old(counter.counts), Label(keys))
  {
    if keys == {} {
      BumpOne(counter.counts, UnknownLanguage);
      counter.Add(UnknownLanguage, 1);
    } else {
      counter.IncrementKeys(keys);
    }
  }

  /**
   * `parse_github_language_data`: fetch the language map of every record
   * (an empty record has no `languages_url` and raises), then count, for
   * each language, the maps that have it, and under "unknown" the maps that
   * are empty.  The result is the one-key dict whose `github_repo_languages`
   * value is the counter itself.
   */
  method ParseLanguageData(fetch: Request -> Response, records: seq<Json>)
    returns (r: Result<map<string, Counter>>, sent: seq<Request>)
    ensures sent == LanguageList(fetch, records, false).sent
    ensures r.Success? <==> LanguageList(fetch, records, false).result.Success?
    ensures r.Success? ==> r.value.Keys == {LanguagesKey}
    ensures r.Success? ==>
      r.value[LanguagesKey].counts == KeyTally(Labelled(LanguageList(fetch, records, false).result.value))
  {
    var list := LanguageList(fetch, records, false);
    sent := list.sent;
    if list.result.Failure? {
      return Failure(list.result.error), sent;
    }
    var languageMaps := list.result.value;
    var counter := new Counter();
    for i := 0 to |languageMaps|
      invariant counter.counts == KeyTally(Labelled(languageMaps[..i]))
    {
      assert languageMaps[..i + 1] == languageMaps[..i] + [languageMaps[i]];
      LabelledSnoc(languageMaps[..i], languageMaps[i]);
      KeyTallySnoc(Labelled(languageMaps[..i]), Label(languageMaps[i]));
      CountLanguageMap(counter, languageMaps[i]);
    }
    assert languageMaps[..|languageMaps|] == languageMaps;
    r := Success(map[LanguagesKey := counter]);
  }

  /** A language's count is unaffected by the "unknown" labels unless it is itself called "unknown". */
  lemma {:induction false} LabelsKeepOtherLanguages(ks: seq<set<string>>, language: string)
    requires language != UnknownLanguage
    ensures Lookup(KeyTally(Labelled(ks)), language) == Lookup(KeyTally(ks), language)
    ensures Lookup(KeyTally(ks), language) == CountHaving(language, ks)
  {
    KeyTallyMeaning(ks, language);
    KeyTallyMeaning(Labelled(ks), language);
    LabelledCountHaving(ks, language);
  }

  lemma {:induction false} LabelledCountHaving(ks: seq<set<string>>, language: string)
    requires language != UnknownLanguage
    ensures CountHaving(language, Labelled(ks)) == CountHaving(language, ks)
    decreases |ks|
  {
    if ks != [] {
      var front := ks[..|ks| - 1];
      assert ks == front + [ks[|ks| - 1]];
      LabelledCountHaving(front, language);
      LabelledSnoc(front, ks[|ks| - 1]);
      CountHavingSnoc(language, Labelled(front), Label(ks[|ks| - 1]));
      CountHavingSnoc(language, front, ks[|ks| - 1]);
    }
  }

  /** "unknown" counts the empty maps, plus the maps that report a language literally called "unknown". */
  lemma {:induction false} UnknownCountsEmptyMaps(ks: seq<set<string>>)
    ensures Lookup(KeyTally(Labelled(ks)), UnknownLanguage) == EmptyCount(ks) + CountHaving(UnknownLanguage, ks)
    decreases |ks|
  {
    KeyTallyMeaning(Labelled(ks), UnknownLanguage);
    if ks != [] {
      var front := ks[..|ks| - 1];
      assert ks == front + [ks[|ks| - 1]];
      UnknownCountsEmptyMaps(front);
      assert EmptyCount(ks) == EmptyCount(front) + (if ks[|ks| - 1] == {} then 1 else 0);
      KeyTallyMeaning(Labelled(front), UnknownLanguage);
      LabelledSnoc(front, ks[|ks| - 1]);
      CountHavingSnoc(UnknownLanguage, Labelled(front), Label(ks[|ks| - 1]));
      CountHavingSnoc(UnknownLanguage, front, ks[|ks| - 1]);
    }
  }

  /** Every repository adds at least one to the language counters, so their sum is at least the number of repositories. */
  lemma {:induction false} EveryRepoCounted(ks: seq<set<string>>)
    ensures Total(KeyTally(Labelled(ks))) >= |ks|
  {
    KeyTallyTotal(Labelled(ks));
    LabelledSizeSum(ks);
  }

  lemma {:induction false} LabelledSizeSum(ks: seq<set<string>>)
    ensures SizeSum(Labelled(ks)) >= |ks|
    decreases |ks|
  {
    if ks != [] {
      var front := ks[..|ks| - 1];
      assert ks == front + [ks[|ks| - 1]];
      LabelledSizeSum(front);
      LabelledSnoc(front, ks[|ks| - 1]);
      SizeSumSnoc(Labelled(front), Label(ks[|ks| - 1]));
    }
  }

  /**
   * `parse_github_repo_data`: the counters alone, returned as the live
   * `defaultdict`: a counter never incremented is absent but reads 0.
   */
  method ParseRepoData(records: seq<Json>) returns (r: Result<Counter>)
    ensures r.Success? <==> DecodeRepos(records).Success?
    ensures r.Success? ==> r.value.counts == RepoCounters(DecodeRepos(records).value)
    ensures r.Success? ==> r.value.Get(TotalKey) == r.value.Get(ForkedKey) + r.value.Get(OriginalKey)
  {
    var output := new Counter();
    ghost var repos: seq<Repo> := [];
    for i := 0 to |records|
      invariant |repos| == i
      invariant forall j :: 0 <= j < i ==> DecodeRepo(records[j]) == Some(repos[j])
      invariant output.counts == RepoCounters(repos)
    {
      var decoded := DecodeRepo(records[i]);
      if decoded.None? {
        return Failure(SchemaMismatch);
      }
      RepoCountersSnoc(repos, decoded.value);
      CountRepoInto(output, decoded.value);
      repos := repos + [decoded.value];
    }
    ReposDecoded(records, repos);
    CountersRead(repos);
    r := Success(output);
  }

  // ---------------------------------------------------------------------
  // main
  // ---------------------------------------------------------------------

  /** What one mode of `main` returns. */
  datatype ModeOutput =
    | UserOutput(user: map<string, Json>)
    | RepoOutput(repoCounters: Counter)
    | StarredOutput(starred: map<string, Json>)
    | LanguageOutput(languages: map<string, Counter>)

  /**
   * `main`: run the one fetch-and-parse pair `mode` names; any other mode
   * falls through every branch and returns `None` without a request.
   */
  method ScriptMain(fetch: Request -> Response, username: string, mode: string, fuel: nat)
    returns (r: Result<Option<ModeOutput>>, sent: seq<Request>)
    ensures mode !in {"user", "repo", "starred", "languages"} ==> r == Success(None) && sent == []
    ensures mode == "user" ==>
      && sent == [UserRequest(username)]
      && (r.Success? <==> FetchUser(fetch, username).result.Success?
                          && ParseUserData(FetchUser(fetch, username).result.value).Success?)
      && (r.Success? ==> r.value == Some(UserOutput(ParseUserData(fetch(UserRequest(username)).body).value)))
    ensures mode == "repo" ==>
      && sent == RepoFetch(fetch, username, fuel).sent
      && (r.Success? <==> RepoFetch(fetch, username, fuel).result.Success?
                          && DecodeRepos(RepoFetch(fetch, username, fuel).result.value).Success?)
      && (r.Success? ==> (r.value.Some? && r.value.value.RepoOutput?
            && r.value.value.repoCounters.counts
               == RepoCounters(DecodeRepos(RepoFetch(fetch, username, fuel).result.value).value)))
    ensures mode == "starred" ==>
      && sent == StarredFetch(fetch, username, fuel).sent
      && (r.Success? <==> StarredFetch(fetch, username, fuel).result.Success?)
      && (r.Success? ==>
            r.value == Some(StarredOutput(map[StarsGivenKey := Int(|StarredFetch(fetch, username, fuel).result.value|)])))
    ensures mode == "languages" ==>
      && (RepoFetch(fetch, username, fuel).result.Failure? ==>
            r.Failure? && sent == RepoFetch(fetch, username, fuel).sent)
      && (RepoFetch(fetch, username, fuel).result.Success? ==>
            var records := RepoFetch(fetch, username, fuel).result.value;
            && sent == RepoFetch(fetch, username, fuel).sent + LanguageList(fetch, records, false).sent
            && (r.Success? <==> LanguageList(fetch, records, false).result.Success?)
            && (r.Success? ==> (r.value.Some? && r.value.value.LanguageOutput?
                  && r.value.value.languages.Keys == {LanguagesKey}
                  && r.value.value.languages[LanguagesKey].counts
                     == KeyTally(Labelled(LanguageList(fetch, records, false).result.value)))))
  {
    if mode == "user" {
      var user := FetchUser(fetch, username);
      sent := user.sent;
      if user.result.Failure? {
        return Failure(user.result.error), sent;
      }
      var parsed := ParseUserData(user.result.value);
      if parsed.Failure? {
        return Failure(parsed.error), sent;
      }
      r := Success(Some(UserOutput(parsed.value)));
    } else if mode == "repo" {
      var repoData := RepoFetch(fetch, username, fuel);
      sent := repoData.sent;
      if repoData.result.Failure? {
        return Failure(repoData.result.error), sent;
      }
      var parsed := ParseRepoData(repoData.result.value);
      if parsed.Failure? {
        return Failure(parsed.error), sent;
      }
      r := Success(Some(RepoOutput(parsed.value)));
    } else if mode == "starred" {
      var starred := StarredFetch(fetch, username, fuel);
      sent := starred.sent;
      if starred.result.Failure? {
        return Failure(starred.result.error), sent;
      }
      r := Success(Some(StarredOutput(ParseStarredData(starred.result.value))));
    } else if mode == "languages" {
      var repoData := RepoFetch(fetch, username, fuel);
      sent := repoData.sent;
      if repoData.result.Failure? {
        return Failure(repoData.result.error), sent;
      }
      var languages, languageSent := ParseLanguageData(fetch, repoData.result.value);
      sent := sent + languageSent;
      if languages.Failure? {
        return Failure(languages.error), sent;
      }
      r := Success(Some(LanguageOutput(languages.value)));
    } else {
      r, sent := Success(None), [];
    }
  }
}

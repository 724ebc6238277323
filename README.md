# hub-bucket: the GitHub fetch-and-aggregate core, in Dafny

hub-bucket answers `GET /api/v1/user?github_username=…&bitbucket_username=…`
with a summary of a GitHub account. The summary has:

- follower and following counts;
- forked, original and total repository counts;
- stars given and stars received;
- a tally of the languages and topics used across the account's repositories.

It has three ways of computing the summary:

- the REST (v3) strategy of `app/github_v3.py`, and its earlier copy `github_v3.py`;
- the GraphQL (v4) strategy of `app/github_v4.py`;
- the stand-alone script `app.py`, which computes one part of the summary per `mode`.

`app/routes.py` validates the query arguments and picks v3 or v4.

The project models that core with the network replaced by an oracle:

- A REST upstream is a function `fetch: Request -> Response`. A request is
  a URL, an optional `per_page` and an optional `accept` header. A response
  is a status, a decoded JSON body and its `links` relations.
- The GraphQL upstream is a function from the posted payload to the
  decoded answer.
- Every operation that talks to an upstream also returns the requests or
  payloads it issued, in order. This is what "the user is fetched first",
  "a rejected call touches no upstream" and "version 3 only uses the REST
  upstream" are stated over.
- JSON values are a datatype `Json`.
- The exceptions listed below are an `Error` in a `Result`; the others
  (JSON decoding, connection errors, a missing credential variable of the
  v4 runner) are listed under "Left out". Nothing in the fetch-and-parse
  pipeline catches an exception, so every failure aborts the run:
  - `raise_for_status` → `HttpError(status)`, for statuses 400 to 599;
  - a `KeyError` or `TypeError` on an unexpected shape → `SchemaMismatch`;
  - the GraphQL `errors` exception → `QueryErrors`;
  - the `Need Pagination` exception → `NeedPagination`;
  - a `RecursionError` in the recursive paginator → `RecursionLimit`.

Modules, one per source file or shared component:

- `Json` (`json.dfy`): JSON values, errors, dict subscripts, Python truthiness.
- `Counting` (`counting.dfy`):
  - `defaultdict(int)` as the class `Counter`, whose `counts` map the loops update in place;
  - `Tally` (occurrence counts) and `KeyTally` (how many key sets hold a key), the reference definitions the counting loops are proved against;
  - `Total`, the sum of a tally's values.
- `Paging` (`paging.dfy`): the link-header paginator, shared by the three REST files.
- `RestRecords` (`rest_records.dfy`):
  - what the three REST files share: URLs, the user fetch, the repository fields the counter loop reads, its counters, and the starred and user parsers;
  - the per-repository language fetch, which comes in two variants.
- `GithubV3` (`github_v3.dfy`): `app/github_v3.py`, and also `github_v3.py`, whose code is the same line for line.
- `App` (`app_script.dfy`): `app.py`.
- `GithubV4` (`github_v4.dfy`): `app/github_v4.py`.
- `Routes` (`routes.dfy`): `app/routes.py`.

How the three REST files differ, and how the model keeps them apart:

- **The `{}` filter.** `app/github_v3.py` and `github_v3.py` skip records
  equal to `{}` before fetching languages. `app.py` does not, so such a
  record raises there.
- **The `"unknown"` language.** `app.py` counts an empty language map under
  `"unknown"`. The v3 files count nothing for it.
- **The returned counter.** `app.py` returns the `defaultdict` itself, so a
  counter never incremented is absent but reads 0. The v3 files convert it
  to a plain dict, so that counter is simply missing. As a result,
  `github_v3_main` fails on an account with no forks, no originals, or no
  repositories at all.
- **Output key spelling.** v3 outputs `originalRespositories` and v4 outputs
  `originalRepositories`; each model keeps its source's spelling.

An empty repository list, or one with no fork or no original, makes
`github_v3_main` raise `KeyError` (app/github_v3.py:216-218), and the model
keeps that failure (`GithubV3.NoForksMeansNoSummary`, `GithubV3.GithubV3Main`).

## Model

| member | source | states |
|---|---|---|
| Paging.Paginate | app/github_v3.py:35-53 | At most `fuel` requests. With fuel, the first request is for `link` with `per_page=100`. The recursion limit is hit only after a chain of `fuel` requests (github_v3.py:22-32, app.py:26-33). |
| Paging.PaginateHeaders | app/github_v3.py:44-50 | Every request of a run asks for 100 records and carries the caller's `accept` header, as the forwarded `kwargs` do (github_v3.py:23-28). |
| Paging.PaginateShape | app/github_v3.py:35-53 | A paginator run requests `link` first, then follows each response's `next` link, at most `fuel` times. On success every page has a non-error status and a list body, the last page has no `next` link, and the result is all pages' records in request order. An HTTP error carries the status of the last page fetched. Same code in github_v3.py:22-32 and app.py:26-33. |
| Paging.PaginateFollowsLinks | app/github_v3.py:44-50 | A run sends at most `fuel` requests. The first request is for `link` with `per_page=100`, and each later one is for the previous response's `next` link. |
| Paging.PaginateSuccess | app/github_v3.py:45-53 | A successful run sent at least one request. Every page it fetched succeeded with a list body, the last page had no `next` link, and the result is the pages' records in order. |
| Paging.PaginateHttpError | app/github_v3.py:45-46 | An HTTP error outcome sent at least one request. It carries the status of the last page fetched, which is in the 400-599 range. |
| Paging.PaginateCollects | app/github_v3.py:45-53 | Conversely: over any chain of good pages that ends without a `next` link, the paginator returns exactly that chain's records, having sent exactly that chain's requests. |
| Paging.PaginateAborts | app/github_v3.py:45-46 | An error status on any page of the chain aborts the whole fetch with that status. No records are returned and no later page is requested. |
| RestRecords.FetchUser | app/github_v3.py:81-92 | The user fetch sends one request to the user URL. It succeeds exactly when the status is not an error, and then returns the body (github_v3.py:48-53, app.py:18-23). |
| RestRecords.DecodeRepo | app/github_v3.py:136-144 | A record is readable exactly when it is a dict with `fork` and int-like `watchers_count`, `size` and `stargazers_count`. It counts as a fork only when `fork` is exactly `True`. |
| RestRecords.DecodeRepos | app/github_v3.py:136-144 | The loop gets through all records exactly when every record is readable, and then it reads each one in order. |
| RestRecords.DecodeTopics | app/github_v3.py:145 | `topics` is readable exactly when it is a list of strings, and it is read element by element. |
| RestRecords.ForkPartition | app/github_v3.py:136-141 | Every repository is exactly one of forked or original, so forks + originals = total. |
| RestRecords.ForkCountZero | app/github_v3.py:138-141 | The forked (original) count is positive exactly when some repository is (is not) a fork. |
| RestRecords.RepoCountersSnoc | app/github_v3.py:136-144 | One loop iteration, in the source's update order, takes the counters of a prefix to the counters of the prefix plus one repository. Those counters hold the total, the fork and original counts and the three field sums, with a key only once it has been incremented. |
| Counting.Counter.constructor | app/github_v3.py:134-135 | A new `defaultdict(int)` holds no key. |
| Counting.Counter.Add | app/github_v3.py:137 | `counter[k] += n` adds `n` to the value `k` reads (0 when absent), and creates `k` even when `n` is 0. No other key changes. |
| Counting.Counter.IncrementKeys | app/github_v3.py:110-111 | `for key in item: counter[key] += 1` adds 1 to each key of the dict and changes no other key (app.py:49-50). |
| RestRecords.CountRepoInto | app/github_v3.py:137-144 | The five in-place counter updates of one iteration are that step. Same code in github_v3.py:86-93 and app.py:67-75. |
| RestRecords.CountKindInto | app/github_v3.py:137-141 | One repository adds 1 to the total, then 1 to the forked or the original count. |
| RestRecords.SumFieldsInto | app/github_v3.py:142-144 | One repository adds its watchers, size and stars to the three sums, in that order. |
| RestRecords.RepoCountersKeys | app/github_v3.py:136-149 | After the loop, the total and watcher counters exist exactly when there is a repository. The forked (original) counter exists exactly when some repository is (is not) a fork. Every counter that exists holds the count or sum it stands for. |
| RestRecords.CountersRead | app.py:65-76 | Read as a `defaultdict` (absent reads 0), the counters equal the repository count, the fork and original counts, and the watcher, size and star sums. The total is forked + original. |
| RestRecords.StarsGivenCountsAllPages | app/github_v3.py:153-161 | Stars given is the length of the starred listing: the number of records across all pages fetched (github_v3.py:102-106, app.py:79-83). |
| RestRecords.ParseUserData | app/github_v3.py:164-183 | The projection succeeds exactly when the profile has `login`, `url`, `followers` and `following`. Its result has exactly the four renamed keys with those values (github_v3.py:109-121, app.py:86-98). |
| RestRecords.LanguageListSkipsEmptyRecords | app/github_v3.py:103-107 | With the v3 filter, a record equal to `{}` issues no request and contributes no language map. |
| RestRecords.LanguageListFailsOnEmptyRecord | app.py:40-43 | Without the filter, a record equal to `{}` has no `languages_url`, and the language fetch fails. |
| RestRecords.LanguageListShape | app/github_v3.py:103-107 | On success there is one request and one key set per record kept (every record without the filter, the records other than `{}` with it). Request i is for the `languages_url` of the i-th kept record, and key set i is the key set of the dict answering it (app.py:40-43). |
| RestRecords.LanguageListRequests | app/github_v3.py:103-106 | On success, request i is for the `languages_url` of the i-th kept record, and there are no other requests. |
| RestRecords.LanguageListBodies | app/github_v3.py:104 | On success, key set i is the key set of the dict answering request i. |
| RestRecords.LanguageList | app/github_v3.py:103-107 | The comprehension issues at most one request per kept record, also when it fails part-way (app.py:40-43). |
| RestRecords.NonEmptyRecords | app/github_v3.py:104-107 | No kept record is `{}`, and every other record is kept as many times as it occurs in the listing. |
| RestRecords.NonEmptyRecordsAppend | app/github_v3.py:104-107 | The filter keeps order: filtering a concatenation gives the filtered parts, concatenated. A single record is kept exactly when it is not `{}`. |
| RestRecords.ParseStarredData | app/github_v3.py:153-161 | The result has the one key `github_stars_given`, holding the number of starred records (github_v3.py:102-106, app.py:79-83). |
| GithubV3.RepoFetch | app/github_v3.py:56-66 | The repository listing starts at `/users/<name>/repos`, and every page request carries the topics preview `accept` header and `per_page=100` (github_v3.py:35-38). |
| GithubV3.StarredFetch | app/github_v3.py:69-78 | The starred listing starts at `/users/<name>/starred`, with `per_page=100` and no extra header on every page (github_v3.py:42-45). |
| GithubV3.ParseRepoData | app/github_v3.py:117-150 | The counter loop succeeds exactly when every record yields its fields and topics. Its dict is then the incremented counters plus `github_topic_list`, the tally of all topics (github_v3.py:74-99). |
| GithubV3.CountRecordInto | app/github_v3.py:137-146 | One loop iteration succeeds exactly when the record yields its four fields and its topics. It then extends the counters to one more repository and the topic tally to one more topic list. |
| GithubV3.AddRepoSummary | app/github_v3.py:214-219 | The repository block of `github_v3_main` succeeds exactly when the parse succeeds and there is both a fork and an original. It then adds the forked, original and total counts and the topic tally to the output. |
| GithubV3.CountTopicsInto | app/github_v3.py:145-146 | The inner topic loop turns the tally of the topics seen so far into the tally of those plus this repository's topics. |
| GithubV3.RepoSummaryKeys | app/github_v3.py:134-148 | `github_topic_list` is always present. The total and the sums are present exactly when there is a repository. The forked (original) count is present exactly when some repository is (is not) a fork. Each present counter holds its count or sum. |
| GithubV3.RepoSummaryEmpty | app/github_v3.py:147-148 | An empty repository list yields only an empty `github_topic_list`. |
| GithubV3.TopicCountsOccurrences | app/github_v3.py:145-148 | A topic is counted exactly when it occurs, and its count is its number of occurrences across all repositories' topics. One more repository adds exactly its own occurrences, so a repository without topics adds nothing. |
| GithubV3.ParseLanguageData | app/github_v3.py:95-114 | It makes the same requests as the language fetch and succeeds with it. It then returns, under `github_repo_languages`, the number of language maps holding each language (github_v3.py:56-71). |
| GithubV3.LanguageCountsRepos | app/github_v3.py:108-111 | Each language is counted once per kept repository whose map has it, and only if some map has it. The counters sum to the total size of the maps. |
| GithubV3.EmptyLanguageMapAddsNothing | app/github_v3.py:109-111 | A repository with an empty language map changes no counter. |
| GithubV3.GithubV3Main | app/github_v3.py:186-228 | It fetches the user first. A failing stage stops the run, and no later request goes out. A failed user fetch or parse sends only the user request. A failed listing, parse or counter lookup sends the user request and the listing pages only. A failed language fetch sends no starred request. It succeeds exactly when every stage succeeds and there is at least one fork and one original. It then returns the eight keys with the reference counts and tallies, having sent: the user request, the repository pages, one language request per kept record, and the starred pages (github_v3.py:124-146). |
| GithubV3.SummaryOf | app/github_v3.py:209-226 | The output has exactly the eight keys `github_v3_main` writes, and its total is forked + original. |
| GithubV3.V3TotalIsForkedPlusOriginal | app/github_v3.py:216-218 | In a successful summary, `totalRepositories` = `forkedRespositories` + `originalRespositories`. |
| GithubV3.NoForksMeansNoSummary | app/github_v3.py:216 | When no repository is a fork, the forked counter is missing and the v3 run cannot succeed, even if every fetch does. |
| App.CountLanguageMap | app.py:45-50 | One iteration adds 1 to every key of the map, or to `"unknown"` when the map is empty. |
| App.ParseLanguageData | app.py:36-53 | It fetches a language map for every record, with no filter. On success it returns the one-key dict whose `github_repo_languages` is the live counter. In that counter, each language counts the maps holding it, and empty maps are counted under `"unknown"`. |
| App.LabelledElementwise | app.py:46-50 | Map i is counted under its own keys, or under `"unknown"` when it is empty. |
| App.RepoFetch | app.py:6-9 | The script's repository listing starts at `/users/<name>/repos`, with `per_page=100` and no extra header on every page. |
| App.StarredFetch | app.py:12-15 | The script's starred listing starts at `/users/<name>/starred`, with `per_page=100` and no extra header on every page. |
| App.LabelsKeepOtherLanguages | app.py:49-50 | The count of any language other than `"unknown"` is the number of repositories whose map has it. |
| App.UnknownCountsEmptyMaps | app.py:46-47 | `"unknown"` counts the empty maps, plus any map that reports a language literally named `"unknown"`. |
| App.EveryRepoCounted | app.py:40-50 | Every repository adds at least 1, so the counters sum to at least the number of repositories. |
| App.ParseRepoData | app.py:56-76 | The loop succeeds exactly when every record is readable. The returned counter holds the incremented counters and reads total = forked + original. |
| App.ScriptMain | app.py:101-117 | `user`, `repo`, `starred` and `languages` each run their own fetch and parse, stated with the requests sent. `languages` returns the one-key dict around the counter. Any other mode returns `None` with no request. |
| GithubV4.QueryPayload | app/github_v4.py:88-95 | The posted variables are exactly `username`, `first` and `after`, and a missing cursor is `null`. |
| GithubV4.QueryRunner | app/github_v4.py:70-100 | An answer holding `errors` fails. Any other answer yields `data.user`, or fails if it has none. The page size defaults to 100 and the cursor to none. |
| GithubV4.QueryErrorsRaise | app/github_v4.py:97-99 | An answer carrying `errors` never yields data, whatever else it holds. |
| GithubV4.QueryRunnerReturnsUser | app/github_v4.py:97-100 | For any answer without `errors`, whatever other keys it holds, the runner succeeds exactly when `data.user` exists, and then returns it. A missing `data` or `user` fails with `SchemaMismatch`. |
| GithubV4.UnpaginatedOutput | app/github_v4.py:162-165 | The projection succeeds exactly when every field is a dict with `totalCount`. It keeps exactly the same key names and maps each to its `totalCount`. |
| GithubV4.StargazerCounts | app/github_v4.py:171-174 | There is one count per edge, in order, and it fails if some edge lacks `node.stargazers.totalCount`. |
| GithubV4.Sum | app/github_v4.py:175 | Python's `sum` over the stargazer counts. With no negative counts, it is non-negative and at least each repository's count. |
| GithubV4.Edges | app/github_v4.py:173 | `repositories.edges` succeeds exactly when both levels exist and the edges are a list, and then it is that list. Otherwise it fails with `SchemaMismatch`. |
| GithubV4.StarsReceivedAdditive | app/github_v4.py:175 | Stars received add up over batches of edges; no edges give 0. |
| GithubV4.NestedNodeLists | app/github_v4.py:110-114 | Every edge must have a node list, and the result keeps only the non-empty lists. |
| GithubV4.NestedNodeListsKeepsEveryNode | app/github_v4.py:110-115 | Dropping the empty lists loses no node: the chained lists are every node of every edge, in edge order (`AllNodeLists`, the lists of all edges with none dropped). |
| GithubV4.EmptyNodeListAddsNothing | app/github_v4.py:113 | An edge with an empty node list contributes nothing. |
| GithubV4.NodeListAppended | app/github_v4.py:110-115 | An edge with a non-empty list contributes exactly that list, after the earlier edges' lists. |
| GithubV4.NodeNames | app/github_v4.py:117-118 | One name per node, in order, and it fails if some node lacks a string at the name path. |
| GithubV4.TallyNames | app/github_v4.py:116-118 | The `defaultdict` loop fails if some node has no string name. Otherwise its counters are the occurrence tally of the node names. |
| GithubV4.CountName | app/github_v4.py:117-118 | One increment turns the tally of the names seen so far into the tally of those names plus one more. |
| GithubV4.ParseNodes | app/github_v4.py:110-119 | The counting loop over the chained node lists yields the occurrence tally of the node names, which is the tally of the names of the nodes of all edges. |
| GithubV4.ParseLanguageNodes | app/github_v4.py:103-119 | The language tally, keyed on `name`. |
| GithubV4.ParseTopicNodes | app/github_v4.py:122-138 | The topic tally, keyed on `topic.name`. |
| GithubV4.NodeTallyMeaning | app/github_v4.py:115-119 | A name is a key exactly when some node has it. Its count is the number of nodes with that name, and the counts sum to the number of nodes. There is no sentinel. |
| GithubV4.GithubV4Main | app/github_v4.py:141-190 | It posts the count query first and the repository query second, both with page size 100 and no cursor. When the count query or its projection fails, it stops after that one post. It succeeds exactly when every stage does. A page reporting `hasNextPage` fails rather than returning a truncated tally. On success it returns the counts plus `starsReceived`, `languages` and `topics`. |
| GithubV4.V4SummaryKeys | app/github_v4.py:162-185 | The summary's keys are the query's aliases, unchanged, plus `starsReceived`, `languages` and `topics`. |
| Routes.DispatchRequest | app/routes.py:37-57 | A missing username gives 400 with the usage message. The version defaults to `"4"`. Only exactly `"3"` and `"4"` run, as 3 or 4. Anything else gives 400 with the version message. |
| Routes.DispatchOutcomes | app/routes.py:37-57 | Every rejection is a 400. Every run is version 3 or 4 with the usernames as given. |
| Routes.VersionDefaultsToFour | app/routes.py:48 | Both usernames without a version run the GraphQL strategy. |
| Routes.PaddedVersionRejected | app/routes.py:49-52 | `"03"` is refused, even though it denotes 3. |
| Routes.ErrorResponse | app/routes.py:12-18 | The status is the argument. `error` is always there, holding the reason phrase or "Unknown error". `message` is there exactly when the message is non-empty. There are no other keys. |
| Routes.ApiV1User | app/routes.py:26-66 | A rejected request touches no upstream and answers the 400 error body. Version 3 uses only the REST upstream and version 4 only the GraphQL one. The call succeeds exactly when the strategy does. It then answers 200 with `github_data`, both usernames and the integer version. |

## Left out

- HTTP, JSON decoding and the framework are out of scope:
  - Requests, responses and decoded bodies are oracle parameters.
  - The upstreams are functions, so a repeated request gets the same answer within a run. Duplicate `languages_url`s and a `next` link that loops back are answered as the first time. Data that changes upstream during a run is not modelled.
  - Decoding errors of `response.json()`, timeouts and connection errors are not modelled.
  - Flask routing, `jsonify` and `/api/v1/status` are not modelled. A strategy failure is the `Failure` result of `Routes.ApiV1User`; the framework's default 500 page and its HTML body are not modelled.
- Credentials are not modelled. `os.environ` is environment input: the v3
  requests authenticate when both variables are set and otherwise go out
  unauthenticated, while the v4 runner raises when they are absent.
- The GraphQL query text is opaque (`GithubV4.Query`). Only the shape of its answers is modelled.
- The reason-phrase table `HTTP_STATUS_CODES` is a parameter (`reasons`) of `Routes.ErrorResponse` and `Routes.ApiV1User`.
- `request.args` is a multi-dict; it is modelled as a map from a name to its first value.
- app/bitbucket.py is not part of this model: it only issues network calls and prints. `bitbucket_username` is only echoed.
- The `__main__` blocks are not modelled, including the v4 expected dict, which asserts live upstream data.
- The interpreter's recursion limit is the `fuel` parameter of `Paging.Paginate`. Its actual value is not modelled.
- `Paging.PaginateShape`: a page whose body is not a list fails with `SchemaMismatch`. In Python, a last page with no `next` link is returned as it is whatever its shape (a dict, a string, a number). Earlier pages are joined with `+`: two string pages concatenate, two number pages add, and a dict page raises.
- `Paging.PaginateSuccess`: states success only for list pages, for the same reason as `Paging.PaginateShape`.
- `RestRecords.LanguageList`: the language response must be a dict. Its status is not checked, as in the source, and a list or string body is not modelled.
- `RestRecords.DecodeRepo`: counter fields must be ints or bools. Float values, which Python would add, are not modelled.
- `RestRecords.DecodeTopics`: `topics` must be a list of strings. Python would also count other hashable JSON values. It would iterate a dict `topics` by its keys and a string `topics` by its characters; the model fails on both.
- `GithubV4.NodeNames`: a name must be a string. `language_dict[language['name']] += 1` and `topic_dict[topic['topic']['name']] += 1` would also count `None`, an int or a bool as a key; the model fails on them instead.
- `GithubV4.TallyNames`: fails on a non-string name, for the reason given for `GithubV4.NodeNames`.
- `GithubV4.NestedNodeLists`: a node list must be a list. An empty dict or empty string there would be chained as nothing by Python.
- `GithubV4.Edges`: `edges` must be a list. An empty dict there would give an empty iteration in Python.
- `GithubV4.QueryRunner`: an answer that is not a dict fails with `SchemaMismatch`. Python would test `'errors' in` a list or string, but the run fails either way.

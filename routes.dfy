/**
 * The HTTP entry point of app/routes.py: validation of the query arguments
 * of `/api/v1/user`, the choice between the REST and the GraphQL strategy,
 * and the shape of the JSON bodies it answers with.
 */
module Routes {
  import opened Json
  import opened Paging
  import RestRecords
  import GithubV3
  import GithubV4

  const GithubUserArg: string := "github_username"
  const BitbucketUserArg: string := "bitbucket_username"
  const VersionArg: string := "github_api_version"

  /** The version used when the query does not name one. */
  const DefaultVersion: string := "4"

  const MissingUsernamesMessage: string :=
    "github_username and bitbucket_username are both required query paramteres. e.g.: "
    + "api/v1/user?github_username=user1&bitbucket_username=user2"

  const BadVersionMessage: string := "GitHub API version must be either 3 or 4"

  /** The reason phrase used for a status the phrase table does not know. */
  const UnknownError: string := "Unknown error"

  /** A JSON response: its status and its top-level object. */
  datatype HttpResponse = HttpResponse(status: int, body: map<string, Json>)

  /** What the arguments decide: an error answer, or a run of one strategy. */
  datatype Dispatch =
    | Reject(status: int, message: string)
    | Run(version: int, githubUsername: string, bitbucketUsername: string)

  /**
   * The validation part of `api_v1_user`: both usernames are required, and
   * the version, `"4"` when absent, must be exactly `"3"` or `"4"`.
   */
  function DispatchRequest(args: map<string, string>): (d: Dispatch)
    ensures GithubUserArg !in args || BitbucketUserArg !in args ==> d == Reject(400, MissingUsernamesMessage)
    ensures GithubUserArg in args && BitbucketUserArg in args ==>
      var version := if VersionArg in args then args[VersionArg] else DefaultVersion;
      && (version != "3" && version != "4" ==> d == Reject(400, BadVersionMessage))
      && (version == "3" ==> d == Run(3, args[GithubUserArg], args[BitbucketUserArg]))
      && (version == "4" ==> d == Run(4, args[GithubUserArg], args[BitbucketUserArg]))
  {
    if GithubUserArg !in args || BitbucketUserArg !in args then Reject(400, MissingUsernamesMessage)
    else
      var version := if VersionArg in args then args[VersionArg] else DefaultVersion;
      if version == "3" then Run(3, args[GithubUserArg], args[BitbucketUserArg])
      else if version == "4" then Run(4, args[GithubUserArg], args[BitbucketUserArg])
      else Reject(400, BadVersionMessage)
  }

  /** Every rejection is a 400, and every run is of version 3 or 4 with the usernames as given. */
  lemma DispatchOutcomes(args: map<string, string>)
    ensures var d := DispatchRequest(args);
      && (d.Reject? ==> d.status == 400)
      && (d.Run? ==> (d.version == 3 || d.version == 4)
                     && d.githubUsername == args[GithubUserArg] && d.bitbucketUsername == args[BitbucketUserArg])
  {
  }

  /** Without a version argument, both usernames are enough to run the GraphQL strategy. */
  lemma VersionDefaultsToFour(github: string, bitbucket: string)
    ensures DispatchRequest(map[GithubUserArg := github, BitbucketUserArg := bitbucket]) == Run(4, github, bitbucket)
  {
    var args := map[GithubUserArg := github, BitbucketUserArg := bitbucket];
    assert VersionArg !in args;
  }

  /** A version that is an integer in another spelling is refused all the same. */
  lemma PaddedVersionRejected(github: string, bitbucket: string)
    ensures DispatchRequest(map[GithubUserArg := github, BitbucketUserArg := bitbucket, VersionArg := "03"])
         == Reject(400, BadVersionMessage)
  {
  }

  /**
   * `error_response`: the body always has `error`, the reason phrase of the
   * status or "Unknown error"; it has `message` only when the message is
   * given and non-empty; the response carries the status it was given.
   */
  method ErrorResponse(status: int, message: Option<string>, reasons: map<int, string>) returns (resp: HttpResponse)
    ensures resp.status == status
    ensures "error" in resp.body
    ensures resp.body["error"] == Str(if status in reasons then reasons[status] else UnknownError)
    ensures "message" in resp.body <==> message.Some? && message.value != ""
    ensures "message" in resp.body ==> resp.body["message"] == Str(message.value)
    ensures resp.body.Keys <= {"error", "message"}
  {
    var payload := map["error" := Str(if status in reasons then reasons[status] else UnknownError)];
    if message.Some? && message.value != "" {
      payload := payload["message" := Str(message.value)];
    }
    resp := HttpResponse(200, payload);
    resp := resp.(status := status);
  }

  /**
   * `api_v1_user`: validate the arguments, run the chosen strategy, and
   * echo the usernames and the integer version beside its data.  A failing
   * strategy raises out of the handler (the framework turns that into a
   * server error), so the result is a failure.  The REST trace `sent` and
   * the GraphQL trace `posted` show which strategy ran: a rejected request
   * touches neither upstream, version 3 only the REST one, version 4 only
   * the GraphQL one.
   */
  method ApiV1User(args: map<string, string>, reasons: map<int, string>,
                   fetch: Request -> Response, fuel: nat, post: GithubV4.Payload -> Json)
    returns (r: Result<HttpResponse>, sent: seq<Request>, posted: seq<GithubV4.Payload>)
    ensures DispatchRequest(args).Reject? ==>
      && sent == [] && posted == []
      && r.Success? && r.value.status == 400
      && r.value.body == map["error" := Str(if 400 in reasons then reasons[400] else UnknownError),
                             "message" := Str(DispatchRequest(args).message)]
    ensures DispatchRequest(args).Run? && DispatchRequest(args).version == 3 ==>
      var github := args[GithubUserArg];
      && posted == []
      && |sent| >= 1 && sent[0] == RestRecords.UserRequest(github)
      && (r.Success? <==> GithubV3.V3Succeeds(fetch, github, fuel))
      && (r.Success? ==> r.value == HttpResponse(200, map[
            "github_data" := Object(GithubV3.V3Summary(fetch, github, fuel)),
            "github_username" := Str(github),
            "bitbucket_username" := Str(args[BitbucketUserArg]),
            "github_api_version" := Int(3)]))
    ensures DispatchRequest(args).Run? && DispatchRequest(args).version == 4 ==>
      var github := args[GithubUserArg];
      && sent == []
      && |posted| >= 1 && posted <= GithubV4.Posted(github)
      && (r.Success? <==> GithubV4.V4Succeeds(post, github))
      && (r.Success? ==> r.value == HttpResponse(200, map[
            "github_data" := Object(GithubV4.V4Summary(post, github)),
            "github_username" := Str(github),
            "bitbucket_username" := Str(args[BitbucketUserArg]),
            "github_api_version" := Int(4)]))
  {
    sent, posted := [], [];
    var d := DispatchRequest(args);
    if d.Reject? {
      var resp := ErrorResponse(d.status, Some(d.message), reasons);
      return Success(resp), sent, posted;
    }
    var githubData: map<string, Json>;
    if d.version == 3 {
      var data;
      data, sent := GithubV3.GithubV3Main(fetch, d.githubUsername, fuel);
      if data.Failure? {
        return Failure(data.error), sent, posted;
      }
      githubData := data.value;
    } else {
      var data;
      data, posted := GithubV4.GithubV4Main(post, d.githubUsername);
      if data.Failure? {
        return Failure(data.error), sent, posted;
      }
      githubData := data.value;
    }
    r := Success(HttpResponse(200, map[
      "github_data" := Object(githubData),
      "github_username" := Str(d.githubUsername),
      "bitbucket_username" := Str(d.bitbucketUsername),
      "github_api_version" := Int(d.version)]));
  }
}

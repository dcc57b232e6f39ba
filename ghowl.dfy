/** The GitHub organisation allow-list authenticator ("ghowl"): a GitHub OAuth
    login that only succeeds for members of at least one listed organisation.

    The three HTTP fetches are not performed here. Their outcomes are inputs
    (`Reply`), and the requests the authenticator issues are returned as a trace,
    so that what is sent, in which order, and what is decided can all be stated. */
module Ghowl {
  import opened Wrappers
  import opened Text

  const OrgListVariable := "GITHUB_ORGANIZATION_LIST"
  const HostVariable := "GITHUB_HOST"
  const PublicHost := "github.com"
  const MissingCodeReason := "oauth callback made without a token"

  /** `os.environ.get(name)`. */
  function GetEnv(env: map<string, string>, name: string): Option<string>
  {
    if name in env then Some(env[name]) else None
  }

  // ---------------------------------------------------------------------------
  // Module-level configuration, computed once at import time
  // ---------------------------------------------------------------------------

  /** The allow-list: absent when the setting is unset or empty, otherwise the
      comma-separated parts of the setting. */
  function ParseOrgList(setting: Option<string>): (allow: Option<seq<string>>)
    ensures allow.None? <==> setting.None? || setting.value == ""
    ensures allow.Some? ==> |allow.value| == Count(setting.value, ',') + 1
    ensures allow.Some? ==> Join(allow.value, ',') == setting.value
    ensures allow.Some? ==> forall i :: 0 <= i < |allow.value| ==> ',' !in allow.value[i]
  {
    if setting.None? || setting.value == "" then None
    else
      JoinSplit(setting.value, ',');
      Some(Split(setting.value, ','))
  }

  /** `os.environ.get('GITHUB_HOST') or 'github.com'`. */
  function GitHubHost(setting: Option<string>): (host: string)
    ensures host != ""
    ensures setting.Some? && setting.value != "" ==> host == setting.value
    ensures setting.None? || setting.value == "" ==> host == PublicHost
  {
    if setting.Some? && setting.value != "" then setting.value else PublicHost
  }

  /** The root of the REST API: the public API host, or `/api/v3` on an
      enterprise host. */
  function ApiRoot(host: string): string
  {
    if host == PublicHost then "api.github.com" else host + "/api/v3"
  }

  /** The configured API base, which already names the `/user` resource. */
  function GitHubApi(host: string): (api: string)
    ensures api == ApiRoot(host) + "/user"
    ensures |api| > 5 && api[|api| - 5..] == "/user"
  {
    if host == PublicHost then "api.github.com/user" else host + "/api/v3/user"
  }

  datatype Config = Config(ghowl: Option<seq<string>>, host: string, api: string)

  /** The three module globals, read from the process environment. */
  function LoadConfig(env: map<string, string>): (cfg: Config)
    ensures cfg.ghowl.None? <==> OrgListVariable !in env || env[OrgListVariable] == ""
    ensures cfg.ghowl.Some? ==> Join(cfg.ghowl.value, ',') == env[OrgListVariable]
    ensures cfg.ghowl.Some? ==> forall i :: 0 <= i < |cfg.ghowl.value| ==> ',' !in cfg.ghowl.value[i]
    ensures Restricted(cfg) <==> cfg.ghowl.Some?
    ensures HostVariable in env && env[HostVariable] != "" ==> cfg.host == env[HostVariable]
    ensures HostVariable !in env || env[HostVariable] == "" ==> cfg.host == PublicHost
    ensures cfg.api == ApiRoot(cfg.host) + "/user"
  {
    var host := GitHubHost(GetEnv(env, HostVariable));
    Config(ParseOrgList(GetEnv(env, OrgListVariable)), host, GitHubApi(host))
  }

  /** Python truthiness of the allow-list global: `None` and `[]` are both false. */
  predicate Restricted(cfg: Config)
  {
    cfg.ghowl.Some? && cfg.ghowl.value != []
  }

  /** Python truthiness of `handler.get_argument("code", False)`. */
  predicate HasCode(code: Option<string>)
  {
    code.Some? && code.value != ""
  }

  // ---------------------------------------------------------------------------
  // Requests
  // ---------------------------------------------------------------------------

  datatype Verb = Get | Post

  datatype Request = Request(verb: Verb, url: string, headers: seq<(string, string)>, body: Option<string>)

  /** `k1=v1&k2=v2...`, without percent-encoding. */
  function QueryString(params: seq<(string, string)>): string
  {
    if params == [] then ""
    else
      params[0].0 + "=" + params[0].1
      + (if |params| == 1 then "" else "&" + QueryString(params[1..]))
  }

  /** `url_concat` on a URL that has no query yet. */
  function UrlConcat(url: string, params: seq<(string, string)>): string
  {
    if params == [] then url else url + "?" + QueryString(params)
  }

  /** The query string of three parameters. */
  lemma QueryStringOfThree(params: seq<(string, string)>)
    requires |params| == 3
    ensures QueryString(params)
            == params[0].0 + "=" + params[0].1 + "&" + params[1].0 + "=" + params[1].1
               + "&" + params[2].0 + "=" + params[2].1
  {
    assert params[1..][1..] == params[2..];
    assert QueryString(params[2..]) == params[2].0 + "=" + params[2].1;
  }

  /** The POST that trades the callback code for an access token; the
      credentials travel in the query string and the body is empty. */
  function TokenRequest(host: string, clientId: string, clientSecret: string, code: string): (req: Request)
    ensures req.verb == Post && req.body == Some("")
    ensures req.url == "https://" + host + "/login/oauth/access_token" + "?"
                       + "client_id" + "=" + clientId + "&" + "client_secret" + "=" + clientSecret
                       + "&" + "code" + "=" + code
    ensures req.headers == [("Accept", "application/json")]
  {
    var params := [("client_id", clientId), ("client_secret", clientSecret), ("code", code)];
    QueryStringOfThree(params);
    Request(Post, UrlConcat("https://" + host + "/login/oauth/access_token", params),
            [("Accept", "application/json")], Some(""))
  }

  /** Headers of both API reads: the token goes in `Authorization`. */
  function ApiHeaders(accessToken: string): seq<(string, string)>
  {
    [("Accept", "application/json"), ("User-Agent", "JupyterHub"), ("Authorization", "token " + accessToken)]
  }

  function UserUrl(api: string): string
  {
    "https://" + api
  }

  /** The membership URL as the code builds it. */
  function OrgsUrlAsWritten(api: string): string
  {
    "https://" + api + "/user/orgs"
  }

  /** As written, the membership URL repeats the `/user` segment the API base
      already ends with, so it never names GitHub's `/user/orgs` resource. */
  lemma OrgsUrlAsWrittenRepeatsUser(host: string)
    ensures OrgsUrlAsWritten(GitHubApi(host)) == "https://" + ApiRoot(host) + "/user/user/orgs"
    ensures OrgsUrlAsWritten(GitHubApi(PublicHost)) == "https://api.github.com/user/user/orgs"
    ensures OrgsUrlAsWritten(GitHubApi(host)) != "https://" + ApiRoot(host) + "/user/orgs"
  {
    var root := ApiRoot(host);
    assert "/user" + "/user/orgs" == "/user/user/orgs";
    assert OrgsUrlAsWritten(GitHubApi(host)) == "https://" + root + ("/user" + "/user/orgs");
    assert |OrgsUrlAsWritten(GitHubApi(host))| == |"https://" + root + "/user/orgs"| + 5;
    assert ApiRoot(PublicHost) == "api.github.com";
    assert "https://" + "api.github.com" + "/user/user/orgs" == "https://api.github.com/user/user/orgs";
  }

  /** The membership URL evidently intended: the `orgs` resource below the
      authenticated user. */
  function OrgsUrl(api: string): string
  {
    "https://" + api + "/orgs"
  }

  /** The corrected URL names `GET /user/orgs` below the API root, and sits
      directly below the URL of the identity read. */
  lemma OrgsUrlNamesMembershipResource(host: string)
    ensures OrgsUrl(GitHubApi(host)) == "https://" + ApiRoot(host) + "/user/orgs"
    ensures OrgsUrl(GitHubApi(host)) == UserUrl(GitHubApi(host)) + "/orgs"
    ensures OrgsUrl(GitHubApi(PublicHost)) == "https://api.github.com/user/orgs"
  {
    var root := ApiRoot(host);
    var api := GitHubApi(host);
    assert api == root + "/user";
    assert "/user" + "/orgs" == "/user/orgs";
    assert OrgsUrl(api) == UserUrl(api) + "/orgs";
    assert OrgsUrl(api) == "https://" + root + ("/user" + "/orgs");
    assert ApiRoot(PublicHost) == "api.github.com";
    assert "https://" + "api.github.com" + "/user/orgs" == "https://api.github.com/user/orgs";
  }

  function UserRequest(api: string, accessToken: string): Request
  {
    Request(Get, UserUrl(api), ApiHeaders(accessToken), None)
  }

  function OrgsRequest(api: string, accessToken: string): Request
  {
    Request(Get, OrgsUrlAsWritten(api), ApiHeaders(accessToken), None)
  }

  // ---------------------------------------------------------------------------
  // The allow/deny decision
  // ---------------------------------------------------------------------------

  /** One element of the `/user/orgs` response. */
  datatype Org = Org(login: string)

  /** `[item["login"] for item in resp_json]`. */
  function OrgLogins(orgs: seq<Org>): (logins: seq<string>)
    ensures |logins| == |orgs|
    ensures forall i :: 0 <= i < |orgs| ==> logins[i] == orgs[i].login
  {
    seq(|orgs|, i requires 0 <= i < |orgs| => orgs[i].login)
  }

  /** `[org for org in orglist if org in ghowl]`: every copy of each fetched
      organisation that is on the list, and nothing else. */
  function Intersection(orgs: seq<string>, allow: seq<string>): (common: seq<string>)
    ensures forall o :: o in common <==> o in orgs && o in allow
    ensures multiset(common) <= multiset(orgs)
    ensures forall o :: multiset(common)[o] == if o in allow then multiset(orgs)[o] else 0
    decreases |orgs|
  {
    if orgs == [] then []
    else
      assert orgs == [orgs[0]] + orgs[1..];
      (if orgs[0] in allow then [orgs[0]] else []) + Intersection(orgs[1..], allow)
  }

  /** The authorisation rule: some fetched organisation is on the list. */
  predicate Admits(orgs: seq<string>, allow: seq<string>)
  {
    exists o :: o in orgs && o in allow
  }

  /** The code's emptiness test of the filtered list is exactly the rule. */
  lemma IntersectionDecides(orgs: seq<string>, allow: seq<string>)
    ensures Intersection(orgs, allow) != [] <==> Admits(orgs, allow)
  {
  }

  /** The decision does not depend on the order (or the multiplicity pattern)
      of the fetched organisations. */
  lemma DecisionIgnoresOrgOrder(orgs: seq<string>, orgs': seq<string>, allow: seq<string>)
    requires multiset(orgs) == multiset(orgs')
    ensures (Intersection(orgs, allow) == []) == (Intersection(orgs', allow) == [])
  {
    IntersectionDecides(orgs, allow);
    IntersectionDecides(orgs', allow);
    forall o | o in orgs
      ensures o in orgs'
    {
      assert o in multiset(orgs);
    }
    forall o | o in orgs'
      ensures o in orgs
    {
      assert o in multiset(orgs');
    }
  }

  /** More memberships, or a longer list, never turn acceptance into rejection. */
  lemma DecisionMonotone(orgs: seq<string>, orgs': seq<string>, allow: seq<string>, allow': seq<string>)
    requires forall o :: o in orgs ==> o in orgs'
    requires forall a :: a in allow ==> a in allow'
    ensures Intersection(orgs, allow) != [] ==> Intersection(orgs', allow') != []
  {
  }

  // ---------------------------------------------------------------------------
  // The authenticator
  // ---------------------------------------------------------------------------

  /** The outcome of one fetch, its JSON already decoded: the decoded value, or
      an exception raised by the client or the decoder. */
  datatype Reply<+T> = Fetched(value: T) | FetchError

  datatype AuthError =
    | HttpError(status: int, reason: string)
    | FetchFailed(request: Request)

  /** `authenticate` either returns a user name or `None`, or raises. */
  datatype AuthOutcome = Returned(user: Option<string>) | Raised(error: AuthError)

  predicate AllFetched(tokenReply: Reply<string>, userReply: Reply<string>, orgsReply: Reply<seq<Org>>)
  {
    tokenReply.Fetched? && userReply.Fetched? && orgsReply.Fetched?
  }

  class GhowlAuthenticator {
    const clientId: string
    const clientSecret: string

    constructor (clientId: string, clientSecret: string)
      ensures this.clientId == clientId && this.clientSecret == clientSecret
    {
      this.clientId := clientId;
      this.clientSecret := clientSecret;
    }

    /** One login attempt. `code` is the callback's `code` argument; the three
        replies are what the token exchange, the identity read and the
        membership read produce, in that order. */
    method Authenticate(cfg: Config, code: Option<string>,
                        tokenReply: Reply<string>, userReply: Reply<string>, orgsReply: Reply<seq<Org>>)
      returns (outcome: AuthOutcome, issued: seq<Request>)
      // no allow-list: decline at once, touching neither the code nor the network
      ensures !Restricted(cfg) ==> outcome == Returned(None) && issued == []
      // a missing or empty code is a client error, raised before any request
      ensures Restricted(cfg) && !HasCode(code) ==> outcome == Raised(HttpError(400, MissingCodeReason)) && issued == []
      // the requests, in their fixed order, each issued only if the one before succeeded
      ensures |issued| <= 3
      ensures |issued| >= 1 <==> Restricted(cfg) && HasCode(code)
      ensures |issued| >= 1 ==> code.Some? && issued[0] == TokenRequest(cfg.host, clientId, clientSecret, code.value)
      ensures |issued| >= 2 <==> |issued| >= 1 && tokenReply.Fetched?
      ensures |issued| >= 2 && tokenReply.Fetched? ==> issued[1] == UserRequest(cfg.api, tokenReply.value)
      ensures |issued| == 3 <==> |issued| >= 2 && userReply.Fetched?
      ensures |issued| == 3 && tokenReply.Fetched? ==> issued[2] == OrgsRequest(cfg.api, tokenReply.value)
      // a failed fetch propagates, naming the last request issued
      ensures outcome.Raised? && outcome.error.FetchFailed?
              <==> |issued| >= 1 && !AllFetched(tokenReply, userReply, orgsReply)
      ensures outcome.Raised? && outcome.error.FetchFailed? ==> |issued| >= 1 && outcome.error.request == issued[|issued| - 1]
      // accepted exactly when some fetched organisation is on the list, with the fetched login
      ensures outcome.Returned? && outcome.user.Some?
              <==> Restricted(cfg) && HasCode(code) && AllFetched(tokenReply, userReply, orgsReply)
                   && Admits(OrgLogins(orgsReply.value), cfg.ghowl.value)
      ensures outcome.Returned? && outcome.user.Some? ==> userReply.Fetched? && outcome.user.value == userReply.value
      // a refusal looks the same as having no list
      ensures outcome == Returned(None)
              <==> !Restricted(cfg)
                   || (HasCode(code) && AllFetched(tokenReply, userReply, orgsReply)
                       && !Admits(OrgLogins(orgsReply.value), cfg.ghowl.value))
    {
      issued := [];
      if cfg.ghowl.None? || cfg.ghowl.value == [] {
        outcome := Returned(None);
        return;
      }
      var allow := cfg.ghowl.value;
      if code.None? || code.value == "" {
        outcome := Raised(HttpError(400, MissingCodeReason));
        return;
      }

      var req := TokenRequest(cfg.host, clientId, clientSecret, code.value);
      issued := issued + [req];
      if tokenReply.FetchError? {
        outcome := Raised(FetchFailed(req));
        return;
      }
      var accessToken := tokenReply.value;

      var headers := ApiHeaders(accessToken);
      req := Request(Get, UserUrl(cfg.api), headers, None);
      issued := issued + [req];
      if userReply.FetchError? {
        outcome := Raised(FetchFailed(req));
        return;
      }
      var user: Option<string> := Some(userReply.value);

      req := Request(Get, OrgsUrlAsWritten(cfg.api), headers, None);
      issued := issued + [req];
      if orgsReply.FetchError? {
        outcome := Raised(FetchFailed(req));
        return;
      }
      var orglist := OrgLogins(orgsReply.value);
      var intersection := Intersection(orglist, allow);
      IntersectionDecides(orglist, allow);
      if intersection == [] {
        user := None;
      }
      outcome := Returned(user);
    }
  }

  /** The configuration of a deployment on github.com that lists `lsst`. */
  function LsstConfig(): Config
  {
    Config(Some(["lsst"]), PublicHost, "api.github.com/user")
  }

  /** A member of `lsst` is let in under their login. */
  method MemberScenario()
  {
    var auth := new GhowlAuthenticator("id", "secret");
    var orgs := [Org("lsst"), Org("other")];
    var outcome, issued := auth.Authenticate(LsstConfig(), Some("abc123"), Fetched("tok"), Fetched("alice"), Fetched(orgs));
    assert OrgLogins(orgs)[0] == "lsst";
    assert "lsst" in OrgLogins(orgs) && "lsst" in ["lsst"];
    assert outcome == Returned(Some("alice"));
    assert |issued| == 3;
    OrgsUrlAsWrittenRepeatsUser(PublicHost);
    assert issued[2].url == "https://api.github.com/user/user/orgs";
  }

  /** A user outside `lsst` is turned away. */
  method NonMemberScenario()
  {
    var auth := new GhowlAuthenticator("id", "secret");
    var orgs := [Org("other")];
    var outcome, issued := auth.Authenticate(LsstConfig(), Some("abc123"), Fetched("tok"), Fetched("alice"), Fetched(orgs));
    assert OrgLogins(orgs) == ["other"];
    assert !Admits(["other"], ["lsst"]);
    assert outcome == Returned(None);
  }

  /** A callback without a code is a client error, and nothing is fetched. */
  method MissingCodeScenario()
  {
    var auth := new GhowlAuthenticator("id", "secret");
    var outcome, issued := auth.Authenticate(LsstConfig(), None, Fetched("tok"), Fetched("alice"), Fetched([Org("lsst")]));
    assert outcome.Raised? && outcome.error.status == 400 && issued == [];
  }
}

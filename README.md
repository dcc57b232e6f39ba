# sqrekubespawner, modelled in Dafny

This project models the two JupyterHub plug-ins of `lsst-sqre/sqrekubespawner`:

- **ghowl**, a GitHub OAuth authenticator with an organisation allow-list. The
  list and the GitHub host come from the process environment at import time.
  A login attempt trades the callback code for an access token, reads the
  user's login, reads the user's organisations, and returns the login only if
  one of those organisations is on the list.
- **SQREKubeSpawner**, a KubeSpawner that derives a DNS-label-safe user name
  and a UID for name templates, and appends the GitHub id and access token to
  the environment of the first container of the pod manifest.

Files:

- `wrappers.dfy`: `Option` and `Result`.
- `text.dfy` (module `Text`): `str.split` and `str.join` with a one-character
  separator, and `str()` of an integer, with their round trips.
- `ghowl.dfy` (module `Ghowl`): the module-level configuration, the requests,
  the allow/deny rule, and `GhowlAuthenticator.Authenticate`. `Authenticate`
  is a sequential method. The outcome of each fetch (a decoded body, or an
  exception) is a parameter. The requests it issues come back as an ordered
  trace.
- `spawner.dfy` (module `Spawner`): the safe name, the UID choice, template
  expansion, and `GetPodManifest`. `GetPodManifest` appends to the first
  container's `EnvList` object in place.

Behaviour of the code worth knowing:

- With no allow-list, `authenticate` returns `None`. It does not defer to the
  base GitHub authenticator.
- The authenticator never stores an `auth_context`. So in this code base the
  spawner's "no `auth_context`" path (an `AttributeError`, caught) is the
  normal one.
- A context that lacks the `"uid"` or `"access_token"` key raises `KeyError`.
  That error is not caught, so the spawn fails rather than degrading.
- An allow-list that is present but empty behaves like no list at all, because
  of Python truthiness. Parsing the environment can never produce one.
- Neither file adds a service-account hardening mount, a security context or
  pull secrets. Those belong to the KubeSpawner base class.

## Model

| member | source | states |
|---|---|---|
| `Text.Split` | ghowlauth/ghowl.py:30 | the comma split has exactly one more part than the string has separators, and no part contains the separator |
| `Text.JoinSplit` | ghowlauth/ghowl.py:29-30 | re-joining the split parts with the separator gives back the original string |
| `Text.SplitJoin` | ghowlauth/ghowl.py:29-30 | splitting a join of separator-free parts gives back those parts |
| `Text.DecimalStringRoundTrip` | sqrekubespawner/sqrekubespawner.py:42 | the decimal text `str()` gives an integer reads back as that integer |
| `Ghowl.ParseOrgList` | ghowlauth/ghowl.py:26-30 | an unset or empty setting yields no list; otherwise the list has one entry more than the setting has commas, so it is never empty, and it re-joins to the setting |
| `Ghowl.GitHubHost` | ghowlauth/ghowl.py:33 | the host is the setting when it is set and non-empty, and `github.com` otherwise; never empty |
| `Ghowl.GitHubApi` | ghowlauth/ghowl.py:34-37 | the API base is `api.github.com/user` for github.com and `<host>/api/v3/user` otherwise, so it always ends in `/user` |
| `Ghowl.LoadConfig` | ghowlauth/ghowl.py:26-37 | the three globals read from the environment: the list is absent exactly when its variable is unset or empty; a present list is made of comma-free parts that re-join to the variable, so by `Text.SplitJoin` it is the comma split; the host and API base follow the rules above |
| `Ghowl.TokenRequest` | ghowlauth/ghowl.py:74-87 | the token exchange is a POST to `https://<host>/login/oauth/access_token` with `client_id`, `client_secret` and `code` in the query, an `Accept: application/json` header and an empty body |
| `Ghowl.OrgsUrlAsWrittenRepeatsUser` | ghowlauth/ghowl.py:108 | the membership URL as written is `https://<api root>/user/user/orgs`, `https://api.github.com/user/user/orgs` on github.com, and never the `/user/orgs` resource |
| `Ghowl.OrgsUrlNamesMembershipResource` | ghowlauth/ghowl.py:108 | the corrected membership URL is `https://<api root>/user/orgs`, directly below the identity URL |
| `Ghowl.OrgLogins` | ghowlauth/ghowl.py:114 | one login per fetched organisation, in fetched order |
| `Ghowl.Intersection` | ghowlauth/ghowl.py:115 | the filtered list holds every copy of each fetched organisation that is on the allow-list and nothing else |
| `Ghowl.IntersectionDecides` | ghowlauth/ghowl.py:115-116 | the filtered list is non-empty if and only if some fetched organisation is on the allow-list |
| `Ghowl.DecisionIgnoresOrgOrder` | ghowlauth/ghowl.py:114-116 | reordering the fetched organisations never changes acceptance |
| `Ghowl.DecisionMonotone` | ghowlauth/ghowl.py:114-116 | adding fetched organisations or allow-list entries never turns acceptance into rejection |
| `Ghowl.GhowlAuthenticator.Authenticate` | ghowlauth/ghowl.py:53-119 | no list: `None`, no code read and no request; missing or empty code: HTTP 400 with no request; otherwise token, identity and membership requests (the latter to the URL as written, `https://<api>/user/orgs`) strictly in that order, each only after the previous one succeeded, both reads carrying `Authorization: token <access token>`; a failed fetch raises naming the last request; the fetched login is returned exactly when some fetched organisation is on the list, and `None` otherwise |
| `Spawner.Str` | sqrekubespawner/sqrekubespawner.py:42 | `str()` keeps a string and writes an integer as its one canonical decimal numeral: a minus sign exactly for negatives, no leading zero except for `0` itself, and reading back as the integer |
| `Spawner.LowerString` | sqrekubespawner/sqrekubespawner.py:18 | lowering keeps the length and works character by character |
| `Spawner.SafeUsername` | sqrekubespawner/sqrekubespawner.py:16-18 | the safe name has the length of the lowered name; every character is in `[a-z0-9-]`; lower-case letters and digits stay, upper-case letters become lower-case, every other character becomes `-` |
| `Spawner.SafeUsernameFixesDnsLabels` | sqrekubespawner/sqrekubespawner.py:16-18 | a name already made of `[a-z0-9-]` is its own safe name |
| `Spawner.SafeUsernameIdempotent` | sqrekubespawner/sqrekubespawner.py:16-18 | making a name safe twice gives the same as once |
| `Spawner.ResolveUid` | sqrekubespawner/sqrekubespawner.py:19-24 | the uid is `auth_context["uid"]` when the lookup succeeds, `user.id` when the authenticator has no `auth_context`, and a `KeyError` when the context lacks `"uid"` |
| `Spawner.FormatAppend` | sqrekubespawner/sqrekubespawner.py:25-28 | formatting a concatenated template concatenates the formatted parts |
| `Spawner.ExpandUserProperties` | sqrekubespawner/sqrekubespawner.py:11-28 | the template is filled with `str(uid)` and the safe name; it fails, with `KeyError("uid")`, exactly when a context is present without `"uid"` |
| `Spawner.FormatKeepsDnsLabelText` | sqrekubespawner/sqrekubespawner.py:25-28 | filling DNS-label literals with DNS-label values gives DNS-label text |
| `Spawner.ExpansionIsDnsLabelText` | sqrekubespawner/sqrekubespawner.py:15-28 | with an integer uid and DNS-label literals, the expanded template is DNS-label text whatever the user's name |
| `Spawner.CredentialEnv` | sqrekubespawner/sqrekubespawner.py:41-44 | the two injected entries are `GITHUB_ID` with `str(uid)`, then `GITHUB_ACCESS_TOKEN` with the token |
| `Spawner.EnvList.Append` | sqrekubespawner/sqrekubespawner.py:41-44 | `list.append` adds the entry at the end and changes nothing else |
| `Spawner.GetPodManifest` | sqrekubespawner/sqrekubespawner.py:31-50 | returns the base manifest itself; only the first container's environment list may change; with both context keys it grows by exactly the two credential entries at its end, earlier entries unchanged and in order; with no `auth_context` it is left as it was; a missing key or an empty container list raises before anything is appended |

## Left out

- HTTP transport, status handling and JSON decoding. Each fetch is a `Reply`: the decoded value, or `FetchError` for any exception a fetch, the decoding or a missing JSON key raises.
- Tornado coroutine semantics. The three fetches are sequential statements.
- `url_concat` percent-encoding. The query string is plain concatenation.
- The `User-Agent` and `Accept` header values are modelled, but not how tornado serialises headers.
- The base classes `GitHubOAuthenticator`, `LocalAuthenticator` and `KubeSpawner`. `LocalGHOWLAuthenticator` only mixes in local account creation, whose code is not part of this model.
- The base manifest is an input. Its `spec`/`containers`/`env` nesting is a given structure, so `KeyError`s from a malformed manifest are not modelled. An empty container list is modelled, as `IndexError`.
- `str.lower()` beyond ASCII. Non-ASCII characters are kept by `Lower` and so become `-`. Python also maps a few of them to ASCII (the Kelvin sign to `k`) or to two characters (dotted capital I).
- `str.format` beyond the `{userid}` and `{username}` fields: format specs, brace escapes and unknown fields.
- Context values other than integers and strings.
- Logging, and the `json.dumps` of the pod spec.
- `NameError`: the code catches it, but nothing in these lines can raise it.
- Packaging metadata and the package re-export.

## Findings

| source | as written | input that shows it | evidently intended | confidence | as-written member | corrected member |
|---|---|---|---|---|---|---|
| ghowlauth/ghowl.py:108 | the membership URL is the API base followed by `/user/orgs`, but the API base already ends in `/user` | the default host `github.com` gives `https://api.github.com/user/user/orgs` | `https://api.github.com/user/orgs`, GitHub's list of the authenticated user's organisations | medium, not executed | `Ghowl.OrgsUrlAsWrittenRepeatsUser` | `Ghowl.OrgsUrlNamesMembershipResource` |

The authenticator's request trace keeps the URL as written; the corrected URL
is stated beside it.

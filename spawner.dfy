/** The SQRE KubeSpawner: a DNS-label-safe user name and a UID for template
    expansion, and a pod manifest whose first container receives the GitHub
    identity and access token from the authenticator's `auth_context`.

    The base spawner's manifest is an input; only the environment list of its
    first container is touched, in place, as the Python list it is. */
module Spawner {
  import opened Wrappers
  import opened Text

  /** The Python values an `auth_context` entry or an environment value holds. */
  datatype Value = IntValue(n: int) | StrValue(s: string)

  /** Python's `str(v)`; an integer's text reads back as the integer. */
  function Str(v: Value): (s: string)
    ensures v.StrValue? ==> s == v.s
    ensures v.IntValue? ==> |s| >= 1 && (if s[0] == '-' then IsDigits(s[1..]) else IsDigits(s))
                            && ParseDecimal(s) == v.n
    ensures v.IntValue? ==> |s| >= 1 && (v.n < 0 <==> s[0] == '-') && (s[0] == '0' ==> s == "0")
                            && (s[0] == '-' ==> |s| >= 2 && s[1] != '0')
  {
    match v
    case IntValue(n) =>
      DecimalStringRoundTrip(n);
      DecimalString(n)
    case StrValue(t) => t
  }

  /** The exceptions the code can meet. `NameError` is caught by the code but
      nothing here can raise it. */
  datatype PyException = AttributeError | NameError | KeyError(key: string) | IndexError

  /** The hub's user: its name, its database id, and the `auth_context` of its
      authenticator, `None` when the authenticator has no such attribute
      (reading it raises `AttributeError`). */
  datatype User = User(name: string, id: int, authContext: Option<map<string, Value>>)

  // ---------------------------------------------------------------------------
  // The DNS-label-safe user name
  // ---------------------------------------------------------------------------

  /** `c.lower()` on ASCII; other characters are left as they are. */
  function Lower(c: char): char
  {
    if 'A' <= c <= 'Z' then (c as int - 'A' as int + 'a' as int) as char else c
  }

  /** `s.lower()`, character by character. */
  function LowerString(s: string): (r: string)
    ensures |r| == |s|
    ensures forall i :: 0 <= i < |s| ==> r[i] == Lower(s[i])
  {
    seq(|s|, i requires 0 <= i < |s| => Lower(s[i]))
  }

  /** Membership in `set(string.ascii_lowercase + string.digits)`. */
  predicate IsSafeChar(c: char)
  {
    'a' <= c <= 'z' || '0' <= c <= '9'
  }

  /** The alphabet of a DNS label. */
  predicate IsDnsLabelChar(c: char)
  {
    'a' <= c <= 'z' || '0' <= c <= '9' || c == '-'
  }

  predicate IsDnsLabelText(s: string)
  {
    forall i :: 0 <= i < |s| ==> IsDnsLabelChar(s[i])
  }

  /** `''.join([s if s in safe_chars else '-' for s in name.lower()])`:
      one character out per character in; lower-case letters and digits kept,
      upper-case letters lowered, everything else a hyphen. */
  function SafeUsername(name: string): (safe: string)
    ensures |safe| == |LowerString(name)| == |name|
    ensures IsDnsLabelText(safe)
    ensures forall i :: 0 <= i < |name| ==>
              safe[i] == (if 'a' <= name[i] <= 'z' || '0' <= name[i] <= '9' then name[i]
                          else if 'A' <= name[i] <= 'Z' then (name[i] as int + 32) as char
                          else '-')
  {
    var lowered := LowerString(name);
    seq(|lowered|, i requires 0 <= i < |lowered| => if IsSafeChar(lowered[i]) then lowered[i] else '-')
  }

  /** A name that is already DNS-label text is its own safe name. */
  lemma SafeUsernameFixesDnsLabels(name: string)
    requires IsDnsLabelText(name)
    ensures SafeUsername(name) == name
  {
  }

  /** Making a name safe twice is the same as once. */
  lemma SafeUsernameIdempotent(name: string)
    ensures SafeUsername(SafeUsername(name)) == SafeUsername(name)
  {
    SafeUsernameFixesDnsLabels(SafeUsername(name));
  }

  // ---------------------------------------------------------------------------
  // The UID and template expansion
  // ---------------------------------------------------------------------------

  /** `auth_context["uid"]`, falling back to the hub's user id when the
      authenticator has no `auth_context`. A context without `"uid"` raises
      `KeyError`, which the code does not catch. */
  function ResolveUid(user: User): (uid: Result<Value, PyException>)
    ensures user.authContext.None? ==> uid == Success(IntValue(user.id))
    ensures user.authContext.Some? ==> (uid.Success? <==> "uid" in user.authContext.value)
    ensures user.authContext.Some? && uid.Success? ==> uid.value == user.authContext.value["uid"]
    ensures uid.Failure? ==> uid.error == KeyError("uid")
  {
    match user.authContext
    case None => Success(IntValue(user.id))
    case Some(ctx) => if "uid" in ctx then Success(ctx["uid"]) else Failure(KeyError("uid"))
  }

  /** A template as `str.format` sees it: literal text and the two named fields. */
  datatype Field = Literal(text: string) | UserIdField | UserNameField

  /** `template.format(userid=..., username=...)` with the two values already
      rendered as text. */
  function Format(template: seq<Field>, userid: string, username: string): string
    decreases |template|
  {
    if template == [] then ""
    else
      var head := match template[0]
        case Literal(text) => text
        case UserIdField => userid
        case UserNameField => username;
      head + Format(template[1..], userid, username)
  }

  /** Formatting a concatenation is concatenating the formatted pieces. */
  lemma {:induction false} FormatAppend(t1: seq<Field>, t2: seq<Field>, userid: string, username: string)
    ensures Format(t1 + t2, userid, username) == Format(t1, userid, username) + Format(t2, userid, username)
    decreases |t1|
  {
    if t1 != [] {
      assert (t1 + t2)[0] == t1[0];
      assert (t1 + t2)[1..] == t1[1..] + t2;
      FormatAppend(t1[1..], t2, userid, username);
    } else {
      assert t1 + t2 == t2;
    }
  }

  /** `_expand_user_properties(template)`. */
  function ExpandUserProperties(user: User, template: seq<Field>): (r: Result<string, PyException>)
    ensures r.Failure? <==> user.authContext.Some? && "uid" !in user.authContext.value
    ensures r.Failure? ==> r.error == KeyError("uid")
    ensures user.authContext.None? ==> r == Success(Format(template, DecimalString(user.id), SafeUsername(user.name)))
    ensures user.authContext.Some? && r.Success?
            ==> r.value == Format(template, Str(user.authContext.value["uid"]), SafeUsername(user.name))
  {
    match ResolveUid(user)
    case Success(uid) => Success(Format(template, Str(uid), SafeUsername(user.name)))
    case Failure(e) => Failure(e)
  }

  /** Every literal of the template is DNS-label text. */
  predicate LiteralsAreDnsLabelText(template: seq<Field>)
  {
    forall i :: 0 <= i < |template| && template[i].Literal? ==> IsDnsLabelText(template[i].text)
  }

  lemma {:induction false} FormatKeepsDnsLabelText(template: seq<Field>, userid: string, username: string)
    requires LiteralsAreDnsLabelText(template)
    requires IsDnsLabelText(userid) && IsDnsLabelText(username)
    ensures IsDnsLabelText(Format(template, userid, username))
    decreases |template|
  {
    if template != [] {
      assert template[0].Literal? ==> IsDnsLabelText(template[0].text);
      assert LiteralsAreDnsLabelText(template[1..]) by {
        forall i | 0 <= i < |template[1..]| && template[1..][i].Literal?
          ensures IsDnsLabelText(template[1..][i].text)
        {
          assert template[1..][i] == template[i + 1];
        }
      }
      FormatKeepsDnsLabelText(template[1..], userid, username);
    }
  }

  /** With an integer UID and DNS-label literals, the expansion is DNS-label
      text whatever the user's name. */
  lemma ExpansionIsDnsLabelText(user: User, template: seq<Field>)
    requires LiteralsAreDnsLabelText(template)
    requires ResolveUid(user).Success? && ResolveUid(user).value.IntValue?
    ensures ExpandUserProperties(user, template).Success?
    ensures IsDnsLabelText(ExpandUserProperties(user, template).value)
  {
    var uid := ResolveUid(user).value;
    var text := Str(uid);
    assert IsDnsLabelText(text) by {
      forall i | 0 <= i < |text|
        ensures IsDnsLabelChar(text[i])
      {
        if text[0] == '-' && i > 0 {
          assert text[1..][i - 1] == text[i];
        }
      }
    }
    FormatKeepsDnsLabelText(template, text, SafeUsername(user.name));
  }

  // ---------------------------------------------------------------------------
  // The pod manifest
  // ---------------------------------------------------------------------------

  datatype EnvVar = EnvVar(name: string, value: Value)

  /** A container's `env` list, a Python list appended to in place. */
  class EnvList {
    var items: seq<EnvVar>

    constructor (items: seq<EnvVar>)
      ensures this.items == items
    {
      this.items := items;
    }

    /** `list.append`. */
    method Append(e: EnvVar)
      modifies this
      ensures items == old(items) + [e]
    {
      items := items + [e];
    }
  }

  /** One entry of `spec.containers`; only its environment list is modelled as
      mutable. */
  class Container {
    const name: string
    const image: string
    const env: EnvList

    constructor (name: string, image: string, env: EnvList)
      ensures this.name == name && this.image == image && this.env == env
    {
      this.name := name;
      this.image := image;
      this.env := env;
    }
  }

  /** The manifest the base spawner built. */
  class PodManifest {
    const podName: string
    const containers: seq<Container>

    constructor (podName: string, containers: seq<Container>)
      ensures this.podName == podName && this.containers == containers
    {
      this.podName := podName;
      this.containers := containers;
    }
  }

  /** The two entries appended to the first container's environment. */
  function CredentialEnv(uid: Value, token: Value): (entries: seq<EnvVar>)
    ensures |entries| == 2
    ensures entries[0].name == "GITHUB_ID" && entries[1].name == "GITHUB_ACCESS_TOKEN"
    ensures entries[0].value.StrValue? && entries[0].value.s == Str(uid)
    ensures entries[1].value == token
  {
    [EnvVar("GITHUB_ID", StrValue(Str(uid))), EnvVar("GITHUB_ACCESS_TOKEN", token)]
  }

  /** Both `auth_context` reads succeed. */
  predicate HasCredentials(user: User)
  {
    user.authContext.Some? && "uid" in user.authContext.value && "access_token" in user.authContext.value
  }

  /** `get_pod_manifest` after the base class has built `pod`: append the
      GitHub id and token to the first container's environment, or leave the
      manifest alone when the authenticator has no `auth_context`. A missing key
      or a manifest without containers raises before anything is appended. */
  method GetPodManifest(user: User, pod: PodManifest) returns (r: Result<PodManifest, PyException>)
    modifies if |pod.containers| > 0 then {pod.containers[0].env} else {}
    ensures r.Success? ==> r.value == pod
    ensures user.authContext.None? ==> r == Success(pod)
    ensures user.authContext.Some? && "uid" !in user.authContext.value ==> r == Failure(KeyError("uid"))
    ensures user.authContext.Some? && "uid" in user.authContext.value && "access_token" !in user.authContext.value
            ==> r == Failure(KeyError("access_token"))
    ensures HasCredentials(user) && |pod.containers| == 0 ==> r == Failure(IndexError)
    ensures HasCredentials(user) && |pod.containers| > 0 ==> r == Success(pod)
    ensures |pod.containers| > 0 && HasCredentials(user) ==>
              pod.containers[0].env.items
              == old(pod.containers[0].env.items)
                 + CredentialEnv(user.authContext.value["uid"], user.authContext.value["access_token"])
    ensures |pod.containers| > 0 && !HasCredentials(user) ==>
              pod.containers[0].env.items == old(pod.containers[0].env.items)
  {
    if user.authContext.None? {
      // AttributeError, caught
      return Success(pod);
    }
    var ctx := user.authContext.value;
    if "uid" !in ctx {
      return Failure(KeyError("uid"));
    }
    var ghId := ctx["uid"];
    if "access_token" !in ctx {
      return Failure(KeyError("access_token"));
    }
    var ghToken := ctx["access_token"];
    if |pod.containers| == 0 {
      return Failure(IndexError);
    }
    var env := pod.containers[0].env;
    env.Append(EnvVar("GITHUB_ID", StrValue(Str(ghId))));
    env.Append(EnvVar("GITHUB_ACCESS_TOKEN", ghToken));
    return Success(pod);
  }

  /** With the shown authenticator no `auth_context` is ever set, so the
      manifest goes out as the base class built it; with a context holding an
      integer uid, the id arrives as its decimal text. */
  method SpawnScenarios()
  {
    var base := [EnvVar("JUPYTERHUB_USER", StrValue("alice"))];
    var env := new EnvList(base);
    var c := new Container("notebook", "lsstsqre/jld-lab", env);
    var pod := new PodManifest("jupyter-alice", [c]);

    var r := GetPodManifest(User("Alice", 7, None), pod);
    assert r == Success(pod) && env.items == base;

    var ctx := map["uid" := IntValue(4242), "access_token" := StrValue("tok")];
    r := GetPodManifest(User("Alice", 7, Some(ctx)), pod);
    assert env.items[..1] == base && |env.items| == 3;
    assert env.items[1].name == "GITHUB_ID" && ParseDecimal(env.items[1].value.s) == 4242;
    assert env.items[2] == EnvVar("GITHUB_ACCESS_TOKEN", StrValue("tok"));
  }
}

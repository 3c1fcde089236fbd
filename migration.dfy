/**
 * The workspace migration (migrate-insomnia-from-auth-to-header.js) on an
 * already-parsed workspace: the `resources` array of the exported Insomnia
 * workspace, rewritten in place by two passes.
 *
 * - The request pass moves bearer authentication into an `Authorization`
 *   header (lines 10-20).
 * - The environment pass adds the trailing `true` argument (and, when it is
 *   missing, the default OIDC server) to every `plus4uToken` tag found as an
 *   environment value (lines 21-32).
 *
 * Reading the file, JSON parsing and writing the result back are not modelled;
 * a pass that throws in the script makes the methods here return `false`.
 */
module Migration {
  import opened Wrappers
  import TemplateTag

  datatype Header = Header(name: string, value: string)

  /** The `authentication` object of a request: its `type` and its `token` (possibly undefined). */
  datatype Authentication = Authentication(kind: string, token: Option<string>)

  /** A JSON value found in an environment's `data`; only strings have a `match` method. */
  datatype DataValue = Text(text: string) | NonText(json: string)

  /**
   * One element of `ws.resources`. `kind` is its `_type`; the fields the script
   * does not look at are kept, unread, in `otherFields`.
   */
  datatype Resource = Resource(
    kind: string,
    authentication: Option<Authentication>,
    headers: Option<seq<Header>>,
    data: Option<map<string, DataValue>>,
    otherFields: map<string, string>)

  const AuthorizationName: string := "Authorization"

  // ---------------------------------------------------------------------------
  // Request pass (lines 10-20)

  /** The filter of line 10: a request whose authentication has type `bearer`. */
  predicate IsBearerRequest(r: Resource) {
    r.kind == "request" && r.authentication.Some? && r.authentication.value.kind == "bearer"
  }

  /** `Bearer ${req.authentication.token}`; an undefined token is rendered as `undefined`. */
  function BearerValue(auth: Authentication): string {
    "Bearer " + match auth.token
      case Some(t) => t
      case None => "undefined"
  }

  function AuthorizationHeader(auth: Authentication): Header {
    Header(AuthorizationName, BearerValue(auth))
  }

  /** `headers.filter(header => header.name != "Authorization")` */
  function WithoutAuthorization(hs: seq<Header>): seq<Header>
  {
    if hs == [] then []
    else if hs[0].name != AuthorizationName then [hs[0]] + WithoutAuthorization(hs[1..])
    else WithoutAuthorization(hs[1..])
  }

  /** The number of headers called `name`. */
  function CountNamed(hs: seq<Header>, name: string): nat
  {
    if hs == [] then 0 else (if hs[0].name == name then 1 else 0) + CountNamed(hs[1..], name)
  }

  /** `xs` is `ys` with some elements left out, the rest in their original order. */
  ghost predicate IsSubsequence<T>(xs: seq<T>, ys: seq<T>)
    decreases |ys|
  {
    if xs == [] then true
    else if ys == [] then false
    else (xs[0] == ys[0] && IsSubsequence(xs[1..], ys[1..])) || IsSubsequence(xs, ys[1..])
  }

  /** The headers of a request, a missing `headers` field read as `[]` (lines 11-13). */
  function HeadersOrEmpty(r: Resource): seq<Header> {
    if r.headers.Some? then r.headers.value else []
  }

  /** What the body of the request pass's `forEach` makes of one resource. */
  function MigrateRequest(r: Resource): Resource
  {
    if IsBearerRequest(r) then
      r.(headers := Some(WithoutAuthorization(HeadersOrEmpty(r)) + [AuthorizationHeader(r.authentication.value)]),
         authentication := None)
    else r
  }

  /** Moves the bearer token of every selected request into its headers (lines 10-20). */
  method MigrateRequests(resources: array<Resource>)
    modifies resources
    ensures forall i :: 0 <= i < resources.Length ==> resources[i] == MigrateRequest(old(resources[i]))
  {
    var i := 0;
    while i < resources.Length
      invariant 0 <= i <= resources.Length
      invariant forall j :: 0 <= j < i ==> resources[j] == MigrateRequest(old(resources[j]))
      invariant forall j :: i <= j < resources.Length ==> resources[j] == old(resources[j])
    {
      var req := resources[i];
      if IsBearerRequest(req) {
        var auth := req.authentication.value;
        if req.headers.None? {
          req := req.(headers := Some([]));
        }
        req := req.(headers := Some(WithoutAuthorization(req.headers.value)));
        req := req.(headers := Some(req.headers.value + [Header(AuthorizationName, BearerValue(auth))]));
        req := req.(authentication := None);
        resources[i] := req;
      }
      i := i + 1;
    }
  }

  // ---------------------------------------------------------------------------
  // Environment pass (lines 21-32)

  predicate IsEnvironment(r: Resource) {
    r.kind == "environment"
  }

  predicate AllText(data: map<string, DataValue>) {
    forall k :: k in data ==> data[k].Text?
  }

  /** `Object.keys(env.data)` and `env.data[key].match` do not throw: `data` is present and holds only strings. */
  predicate PassableEnvironment(r: Resource) {
    r.data.Some? && AllText(r.data.value)
  }

  /** Every value of an environment's data after the pass. */
  function MigrateData(data: map<string, DataValue>): map<string, DataValue>
    requires AllText(data)
  {
    map k | k in data :: Text(TemplateTag.MigrateValue(data[k].text))
  }

  /** What the environment pass makes of one resource; None when the script would throw on it. */
  function MigrateEnvironment(r: Resource): Option<Resource>
  {
    if !IsEnvironment(r) then Some(r)
    else if PassableEnvironment(r) then Some(r.(data := Some(MigrateData(r.data.value))))
    else None
  }

  /**
   * The inner `forEach` over the keys of one environment's data (lines 22-31):
   * rewrites every value in place, or fails on the first value that is not a
   * string. Keys are visited in no particular order.
   */
  method MigrateEnvironmentData(data: map<string, DataValue>) returns (ok: bool, migrated: map<string, DataValue>)
    ensures ok <==> AllText(data)
    ensures ok ==> migrated.Keys == data.Keys
    ensures ok ==> forall k :: k in data ==> migrated[k] == Text(TemplateTag.MigrateValue(data[k].text))
  {
    migrated := data;
    var todo := data.Keys;
    while todo != {}
      invariant todo <= data.Keys
      invariant migrated.Keys == data.Keys
      invariant forall k :: k in todo ==> migrated[k] == data[k]
      invariant forall k :: k in data && k !in todo ==> data[k].Text? && migrated[k] == Text(TemplateTag.MigrateValue(data[k].text))
      decreases todo
    {
      var key :| key in todo;
      match migrated[key]
      case NonText(_) =>
        return false, migrated;
      case Text(t) =>
        migrated := migrated[key := Text(TemplateTag.MigrateValue(t))];
      todo := todo - {key};
    }
    ok := true;
  }

  /**
   * The state the environment pass leaves when it throws at resource `k`: the
   * resources before `k` are rewritten, `k` cannot be, and the rest are as they were.
   */
  ghost predicate StoppedAt(k: int, before: seq<Resource>, after: seq<Resource>) {
    && 0 <= k < |before| == |after|
    && MigrateEnvironment(before[k]).None?
    && (forall i :: 0 <= i < k ==> Some(after[i]) == MigrateEnvironment(before[i]))
    && (forall i :: k <= i < |before| ==> after[i] == before[i])
  }

  /**
   * Rewrites the data of every environment in order (lines 21-32). It stops,
   * returning false, at the first environment whose data is missing or holds a
   * non-string; earlier resources are then already rewritten, that one and the
   * later ones are not.
   */
  method MigrateEnvironments(resources: array<Resource>) returns (ok: bool)
    modifies resources
    ensures ok <==> forall i :: 0 <= i < resources.Length ==> MigrateEnvironment(old(resources[i])).Some?
    ensures ok ==> forall i :: 0 <= i < resources.Length ==> resources[i] == MigrateEnvironment(old(resources[i])).value
    ensures !ok ==> exists k :: 0 <= k < resources.Length && StoppedAt(k, old(resources[..]), resources[..])
  {
    var i := 0;
    while i < resources.Length
      invariant 0 <= i <= resources.Length
      invariant forall j :: 0 <= j < i ==> Some(resources[j]) == MigrateEnvironment(old(resources[j]))
      invariant forall j :: i <= j < resources.Length ==> resources[j] == old(resources[j])
    {
      var env := resources[i];
      if IsEnvironment(env) {
        if env.data.None? {
          assert StoppedAt(i, old(resources[..]), resources[..]);
          return false;
        }
        var good, data := MigrateEnvironmentData(env.data.value);
        if !good {
          assert StoppedAt(i, old(resources[..]), resources[..]);
          return false;
        }
        assert data == MigrateData(env.data.value);
        resources[i] := env.(data := Some(data));
      }
      i := i + 1;
    }
    ok := true;
  }

  // ---------------------------------------------------------------------------
  // The whole script

  /** Both passes applied to one resource; None when the environment pass would throw on it. */
  function MigrateResource(r: Resource): Option<Resource>
  {
    MigrateEnvironment(MigrateRequest(r))
  }

  /** The migrated workspace resources, or None when the script throws (and the file is not written). */
  function MigrateWorkspace(rs: seq<Resource>): Option<seq<Resource>>
  {
    if forall i :: 0 <= i < |rs| ==> MigrateResource(rs[i]).Some? then
      Some(seq(|rs|, i requires 0 <= i < |rs| && MigrateResource(rs[i]).Some? => MigrateResource(rs[i]).value))
    else None
  }

  /** The resources after the request pass alone. */
  function RequestPass(rs: seq<Resource>): (out: seq<Resource>)
    ensures |out| == |rs|
    ensures forall i :: 0 <= i < |rs| ==> out[i] == MigrateRequest(rs[i])
  {
    seq(|rs|, i requires 0 <= i < |rs| => MigrateRequest(rs[i]))
  }

  /** The script from line 10 to 32: the request pass, then the environment pass. */
  method Migrate(resources: array<Resource>) returns (ok: bool)
    modifies resources
    ensures ok <==> MigrateWorkspace(old(resources[..])).Some?
    ensures ok ==> resources[..] == MigrateWorkspace(old(resources[..])).value
    ensures !ok ==> exists k :: 0 <= k < resources.Length && StoppedAt(k, RequestPass(old(resources[..])), resources[..])
  {
    ghost var original := resources[..];
    MigrateRequests(resources);
    assert resources[..] == RequestPass(original);
    ok := MigrateEnvironments(resources);
    if ok {
      assert forall i :: 0 <= i < resources.Length ==> MigrateResource(original[i]).Some?;
      assert resources[..] == MigrateWorkspace(original).value;
    }
  }
  // ---------------------------------------------------------------------------
  // Properties of the request pass

  /** Every kept header is not an Authorization header, is kept in order, and every other header is kept as often as it occurs. */
  lemma {:induction false} WithoutAuthorizationKeepsOthers(hs: seq<Header>)
    ensures CountNamed(WithoutAuthorization(hs), AuthorizationName) == 0
    ensures IsSubsequence(WithoutAuthorization(hs), hs)
    ensures forall h: Header :: h.name != AuthorizationName ==> multiset(WithoutAuthorization(hs))[h] == multiset(hs)[h]
  {
    if hs != [] {
      WithoutAuthorizationKeepsOthers(hs[1..]);
      assert hs == [hs[0]] + hs[1..];
      var rest := WithoutAuthorization(hs[1..]);
      if hs[0].name != AuthorizationName {
        assert ([hs[0]] + rest)[1..] == rest;
      }
    }
  }

  lemma {:induction false} WithoutAuthorizationIdempotent(hs: seq<Header>)
    ensures WithoutAuthorization(WithoutAuthorization(hs)) == WithoutAuthorization(hs)
  {
    if hs != [] {
      WithoutAuthorizationIdempotent(hs[1..]);
      var rest := WithoutAuthorization(hs[1..]);
      if hs[0].name != AuthorizationName {
        assert ([hs[0]] + rest)[1..] == rest;
      }
    }
  }

  lemma {:induction false} WithoutAuthorizationAppend(a: seq<Header>, b: seq<Header>)
    ensures WithoutAuthorization(a + b) == WithoutAuthorization(a) + WithoutAuthorization(b)
  {
    if a != [] {
      assert (a + b)[1..] == a[1..] + b;
      WithoutAuthorizationAppend(a[1..], b);
    } else {
      assert a + b == b;
    }
  }

  lemma {:induction false} CountNamedAppend(a: seq<Header>, b: seq<Header>, name: string)
    ensures CountNamed(a + b, name) == CountNamed(a, name) + CountNamed(b, name)
  {
    if a != [] {
      assert (a + b)[1..] == a[1..] + b;
      CountNamedAppend(a[1..], b, name);
    } else {
      assert a + b == b;
    }
  }

  /**
   * A selected request ends with exactly one Authorization header, the last
   * one, carrying its bearer token; its other headers are those it had, in
   * the same order; its authentication is gone; nothing else changes.
   */
  lemma BearerRequestMigrated(r: Resource)
    requires IsBearerRequest(r)
    ensures var m := MigrateRequest(r);
      && m.authentication.None?
      && m.headers.Some? && |m.headers.value| >= 1
      && m.headers.value[|m.headers.value| - 1] == Header(AuthorizationName, BearerValue(r.authentication.value))
      && CountNamed(m.headers.value, AuthorizationName) == 1
      && WithoutAuthorization(m.headers.value) == WithoutAuthorization(HeadersOrEmpty(r))
      && IsSubsequence(WithoutAuthorization(HeadersOrEmpty(r)), m.headers.value)
      && m.kind == r.kind && m.data == r.data && m.otherFields == r.otherFields
  {
    var kept := WithoutAuthorization(HeadersOrEmpty(r));
    var auth := [AuthorizationHeader(r.authentication.value)];
    WithoutAuthorizationKeepsOthers(HeadersOrEmpty(r));
    CountNamedAppend(kept, auth, AuthorizationName);
    WithoutAuthorizationAppend(kept, auth);
    WithoutAuthorizationIdempotent(HeadersOrEmpty(r));
    assert WithoutAuthorization(auth) == [];
    SubsequenceOfPrefix(kept, kept, auth);
  }

  lemma {:induction false} SubsequenceOfPrefix<T>(xs: seq<T>, ys: seq<T>, zs: seq<T>)
    requires xs == ys
    ensures IsSubsequence(xs, ys + zs)
    decreases |ys|
  {
    if xs != [] {
      assert (ys + zs)[1..] == ys[1..] + zs;
      SubsequenceOfPrefix(xs[1..], ys[1..], zs);
    }
  }

  /** A selected request with no `headers` field ends up with the Authorization header alone. */
  lemma BearerRequestWithoutHeaders(r: Resource)
    requires IsBearerRequest(r) && r.headers.None?
    ensures MigrateRequest(r).headers == Some([Header(AuthorizationName, BearerValue(r.authentication.value))])
  {
    var auth := [AuthorizationHeader(r.authentication.value)];
    assert HeadersOrEmpty(r) == [];
    assert WithoutAuthorization([]) == [];
    assert [] + auth == auth;
  }

  /** The request pass changes a resource exactly when it is a request with bearer authentication. */
  lemma RequestPassSelection(r: Resource)
    ensures MigrateRequest(r) != r <==> IsBearerRequest(r)
  {
  }

  // ---------------------------------------------------------------------------
  // Properties of the environment pass and of the whole script

  /**
   * The environment pass keeps the keys of an environment's data, leaves a value
   * that is not a tag as it is, and turns a tag into one with the added arguments.
   */
  lemma EnvironmentMigrated(r: Resource, key: string)
    requires IsEnvironment(r) && PassableEnvironment(r)
    requires key in r.data.value
    ensures var m := MigrateEnvironment(r);
      && m.Some? && m.value.data.Some?
      && m.value.data.value.Keys == r.data.value.Keys
      && m.value.data.value[key].Text?
      && var before, after := r.data.value[key].text, m.value.data.value[key].text;
      && (TemplateTag.MatchPluginTag(before).None? <==> after == before)
      && (TemplateTag.ParseArgs(before).Some? ==>
            after == TemplateTag.Render(TemplateTag.MigratedArgs(TemplateTag.ParseArgs(before).value)))
  {
    var before := r.data.value[key].text;
    TemplateTag.MigrateChangesOnlyMatches(before);
    if TemplateTag.ParseArgs(before).Some? {
      TemplateTag.MigrateMatched(before);
    }
  }

  /** The environment pass touches only environments and the request pass only requests, so they commute. */
  lemma PassesCommute(r: Resource)
    ensures MigrateEnvironment(MigrateRequest(r)) == (match MigrateEnvironment(r) case None => None case Some(e) => Some(MigrateRequest(e)))
  {
  }

  lemma ResourceMigrationIdempotent(r: Resource)
    requires MigrateResource(r).Some?
    ensures MigrateResource(MigrateResource(r).value) == MigrateResource(r)
  {
    var m := MigrateResource(r).value;
    if IsEnvironment(r) {
      var data := r.data.value;
      var once := MigrateData(data);
      assert m.data == Some(once);
      forall k | k in once ensures once[k] == Text(TemplateTag.MigrateValue(once[k].text)) {
        TemplateTag.MigrateValueIdempotent(data[k].text);
      }
      assert MigrateData(once) == once;
    }
  }

  /** Running the migration on its own output changes nothing. */
  lemma WorkspaceMigrationIdempotent(rs: seq<Resource>)
    requires MigrateWorkspace(rs).Some?
    ensures MigrateWorkspace(MigrateWorkspace(rs).value) == MigrateWorkspace(rs)
  {
    var out := MigrateWorkspace(rs).value;
    forall i | 0 <= i < |out| ensures MigrateResource(out[i]) == Some(out[i]) {
      ResourceMigrationIdempotent(rs[i]);
    }
    assert MigrateWorkspace(out).value == out;
  }
}

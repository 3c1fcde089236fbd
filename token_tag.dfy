/**
 * The `plus4uToken` template tag of plugin.js: its `run` method turns two
 * access codes into an identity token, remembering the token server's answer
 * for ten minutes in a NodeCache keyed by `accessCode1:accessCode2`.
 *
 * The clock (`Date.now()`, in milliseconds) is an explicit argument, and the
 * HTTP POST to the token endpoint is an oracle `grant` from the credential
 * record it sends to the outcome of the request.
 */
module TokenTag {
  import opened Wrappers

  /** `stdTTL: 10*60`, in seconds. */
  const StdTtlSeconds: nat := 10 * 60

  /** NodeCache stores the expiry instant in milliseconds: set time + `stdTTL * 1000`. */
  const TtlMillis: int := StdTtlSeconds * 1000

  /** The JSON body of the token request (lines 29-33). */
  datatype Credentials = Credentials(accessCode1: string, accessCode2: string, grantType: string)

  /**
   * The parsed JSON answer of the token endpoint: `null`, any other scalar
   * (truthy or falsy), or an object whose `id_token` may be undefined.
   */
  datatype Response = Null | Scalar(truthy: bool) | Object(idToken: Option<string>)

  /** The outcome of `r2.post(...).json`: the promise rejects, or a parsed body arrives. */
  datatype PostOutcome = Rejected | Received(response: Response)

  /** A cache entry: the stored value and the instant (ms) after which it has expired. */
  datatype Entry = Entry(response: Response, expiresAt: int)

  /** What `run` does: return a value (`undefined` is None), or throw. */
  datatype RunResult = Returned(token: Option<string>) | Threw

  predicate Truthy(resp: Response) {
    match resp
    case Null => false
    case Scalar(b) => b
    case Object(_) => true
  }

  /** `resp.id_token`: a TypeError on null, undefined on any other scalar. */
  function ReadIdToken(resp: Response): RunResult {
    match resp
    case Null => Threw
    case Scalar(_) => Returned(None)
    case Object(t) => Returned(t)
  }

  /** `${accessCode1}:${accessCode2}` (line 26). */
  function CacheKey(accessCode1: string, accessCode2: string): (key: string)
    ensures |key| == |accessCode1| + 1 + |accessCode2|
    ensures key[..|accessCode1|] == accessCode1 && key[|accessCode1|] == ':' && key[|accessCode1| + 1..] == accessCode2
  {
    accessCode1 + ":" + accessCode2
  }

  /** The password-grant record of lines 29-33. */
  function PasswordGrant(accessCode1: string, accessCode2: string): Credentials {
    Credentials(accessCode1, accessCode2, "password")
  }

  // ---------------------------------------------------------------------------
  // NodeCache with lazy expiry (plugin.js line 24)

  /** NodeCache's `get` result: the stored value while it has not expired (it expires once `expiresAt < now`). */
  function Lookup(entries: map<string, Entry>, key: string, now: int): Option<Response>
  {
    if key in entries && now <= entries[key].expiresAt then Some(entries[key].response) else None
  }

  /** NodeCache's `get` deletes an entry it finds expired. */
  function DropExpired(entries: map<string, Entry>, key: string, now: int): map<string, Entry>
  {
    if key in entries && entries[key].expiresAt < now then entries - {key} else entries
  }

  /** NodeCache with a default TTL and no bound on its size; the clock is passed in. */
  class TtlCache {
    var entries: map<string, Entry>
    const ttlMillis: int

    constructor (stdTtlSeconds: nat)
      ensures entries == map[] && ttlMillis == stdTtlSeconds * 1000
    {
      entries := map[];
      ttlMillis := stdTtlSeconds * 1000;
    }

    method Get(key: string, now: int) returns (value: Option<Response>)
      modifies this
      ensures value == Lookup(old(entries), key, now)
      ensures entries == DropExpired(old(entries), key, now)
    {
      if key in entries && entries[key].expiresAt < now {
        entries := entries - {key};
        value := None;
      } else if key in entries {
        value := Some(entries[key].response);
      } else {
        value := None;
      }
    }

    method Set(key: string, value: Response, now: int)
      modifies this
      ensures entries == old(entries)[key := Entry(value, now + ttlMillis)]
    {
      entries := entries[key := Entry(value, now + ttlMillis)];
    }
  }

  // ---------------------------------------------------------------------------
  // run (lines 25-39)

  /** One call of `run`: its result, the cache afterwards, and the POST it made, if any. */
  datatype Step = Step(result: RunResult, entries: map<string, Entry>, post: Option<Credentials>)

  /**
   * `run(context, accessCode1, accessCode2)` on a cache holding `entries`, called
   * at `now`; the POST's answer (if one is made) arrives at `arrival`, the
   * instant at which `cache.set` reads the clock.
   */
  function RunSpec(entries: map<string, Entry>, accessCode1: string, accessCode2: string,
                   grant: Credentials -> PostOutcome, now: int, arrival: int): Step
  {
    var key := CacheKey(accessCode1, accessCode2);
    var cached := Lookup(entries, key, now);
    var afterGet := DropExpired(entries, key, now);
    if cached.Some? && Truthy(cached.value) then
      Step(ReadIdToken(cached.value), afterGet, None)
    else
      var credentials := PasswordGrant(accessCode1, accessCode2);
      match grant(credentials)
      case Rejected => Step(Threw, afterGet, Some(credentials))
      case Received(resp) =>
        Step(ReadIdToken(resp), afterGet[key := Entry(resp, arrival + TtlMillis)], Some(credentials))
  }

  /** The template tag object: its `cache` and, as a record, every POST `run` has made. */
  class Plus4uTokenTag {
    const cache: TtlCache
    ghost var posts: seq<Credentials>

    ghost predicate Valid() {
      cache.ttlMillis == TtlMillis
    }

    constructor ()
      ensures Valid() && fresh(cache) && cache.entries == map[] && posts == []
    {
      cache := new TtlCache(StdTtlSeconds);
      posts := [];
    }

    method Run(accessCode1: string, accessCode2: string, grant: Credentials -> PostOutcome, now: int, arrival: int)
      returns (result: RunResult)
      requires Valid()
      modifies this, cache
      ensures Valid()
      ensures var step := RunSpec(old(cache.entries), accessCode1, accessCode2, grant, now, arrival);
        && result == step.result
        && cache.entries == step.entries
        && posts == old(posts) + (if step.post.Some? then [step.post.value] else [])
    {
      var key := CacheKey(accessCode1, accessCode2);
      var resp := cache.Get(key, now);
      if resp.None? || !Truthy(resp.value) {
        var credentials := PasswordGrant(accessCode1, accessCode2);
        posts := posts + [credentials];
        var outcome := grant(credentials);
        if outcome.Rejected? {
          return Threw;
        }
        resp := Some(outcome.response);
        cache.Set(key, outcome.response, arrival);
      }
      result := ReadIdToken(resp.value);
    }
  }

  // ---------------------------------------------------------------------------
  // Properties of the key

  /** The key does not tell the access codes apart when the first one contains a colon. */
  lemma CacheKeyNotInjective()
    ensures CacheKey("a:b", "") == CacheKey("a", "b:")
  {
    assert CacheKey("a:b", "") == "a:b:";
    assert CacheKey("a", "b:") == "a:b:";
  }

  /** Without a colon in the first access code, the key determines both codes. */
  lemma CacheKeyInjectiveWithoutColon(a1: string, a2: string, b1: string, b2: string)
    requires ':' !in a1 && ':' !in b1
    requires CacheKey(a1, a2) == CacheKey(b1, b2)
    ensures a1 == b1 && a2 == b2
  {
  }

  // ---------------------------------------------------------------------------
  // Properties of run

  /** A present, unexpired, truthy entry is served without a POST and leaves the cache as it is. */
  lemma HitServesCachedResponse(entries: map<string, Entry>, accessCode1: string, accessCode2: string,
                                 grant: Credentials -> PostOutcome, now: int, arrival: int)
    requires var cached := Lookup(entries, CacheKey(accessCode1, accessCode2), now); cached.Some? && Truthy(cached.value)
    ensures var step := RunSpec(entries, accessCode1, accessCode2, grant, now, arrival);
      && step.post.None?
      && step.entries == entries
      && step.result == ReadIdToken(entries[CacheKey(accessCode1, accessCode2)].response)
  {
  }

  /**
   * On a miss, exactly one POST is made, with the password-grant record; the
   * answer is stored under the key with a fresh TTL, and no other key changes.
   */
  lemma MissPostsPasswordGrant(entries: map<string, Entry>, accessCode1: string, accessCode2: string,
                                grant: Credentials -> PostOutcome, now: int, arrival: int)
    requires var cached := Lookup(entries, CacheKey(accessCode1, accessCode2), now); cached.None? || !Truthy(cached.value)
    ensures var step := RunSpec(entries, accessCode1, accessCode2, grant, now, arrival);
      var key := CacheKey(accessCode1, accessCode2);
      && step.post == Some(Credentials(accessCode1, accessCode2, "password"))
      && (forall k :: k != key ==> (k in step.entries <==> k in entries))
      && (forall k :: k != key && k in entries ==> step.entries[k] == entries[k])
      && match grant(Credentials(accessCode1, accessCode2, "password"))
         case Received(resp) => key in step.entries && step.entries[key] == Entry(resp, arrival + TtlMillis)
                                && step.result == ReadIdToken(resp)
         case Rejected => step.result == Threw
  {
  }

  /** Whenever `run` returns, it returns the `id_token` of the response the cache now holds for the key. */
  lemma ResultIsIdTokenOfKeyEntry(entries: map<string, Entry>, accessCode1: string, accessCode2: string,
                                  grant: Credentials -> PostOutcome, now: int, arrival: int)
    ensures var step := RunSpec(entries, accessCode1, accessCode2, grant, now, arrival);
      var key := CacheKey(accessCode1, accessCode2);
      step.result.Returned? ==> key in step.entries && step.result == ReadIdToken(step.entries[key].response)
  {
  }

  /** An entry stored at `t` is served by a lookup at `now` exactly when `now <= t + 600000`. */
  lemma EntryLifetime(entries: map<string, Entry>, key: string, resp: Response, t: int, now: int)
    requires key in entries && entries[key] == Entry(resp, t + TtlMillis)
    ensures Lookup(entries, key, now) == if now <= t + 10 * 60 * 1000 then Some(resp) else None
  {
  }

  /**
   * After a call that fetched a truthy response arriving at `t`, a later call with
   * the same access codes makes no POST exactly when it comes no later than
   * `t + 600000`.
   */
  lemma FetchedResponseServedUntilExpiry(entries: map<string, Entry>, accessCode1: string, accessCode2: string,
                                         grant: Credentials -> PostOutcome, now: int, t: int,
                                         grant': Credentials -> PostOutcome, later: int, arrival': int)
    requires var first := RunSpec(entries, accessCode1, accessCode2, grant, now, t);
      first.post.Some? && grant(first.post.value).Received? && Truthy(grant(first.post.value).response)
    ensures var first := RunSpec(entries, accessCode1, accessCode2, grant, now, t);
      var second := RunSpec(first.entries, accessCode1, accessCode2, grant', later, arrival');
      second.post.None? <==> later <= t + TtlMillis
  {
    var first := RunSpec(entries, accessCode1, accessCode2, grant, now, t);
    var key := CacheKey(accessCode1, accessCode2);
    assert first.entries[key] == Entry(grant(first.post.value).response, t + TtlMillis);
  }

  /**
   * Two calls with the same access codes make at most one POST between them
   * when the first one returns a token and the second comes within the TTL of
   * the instant the first one's answer arrived.
   */
  lemma RepeatedCallPostsAtMostOnce(entries: map<string, Entry>, accessCode1: string, accessCode2: string,
                                    grant: Credentials -> PostOutcome, now: int, arrival: int,
                                    grant': Credentials -> PostOutcome, later: int, arrival': int, token: string)
    requires RunSpec(entries, accessCode1, accessCode2, grant, now, arrival).result == Returned(Some(token))
    requires later <= arrival + TtlMillis
    ensures var first := RunSpec(entries, accessCode1, accessCode2, grant, now, arrival);
      var second := RunSpec(first.entries, accessCode1, accessCode2, grant', later, arrival');
      (if first.post.Some? then 1 else 0) + (if second.post.Some? then 1 else 0) <= 1
  {
    var first := RunSpec(entries, accessCode1, accessCode2, grant, now, arrival);
    if first.post.Some? {
      var resp := grant(first.post.value).response;
      assert Truthy(resp) by {
        assert first.result == ReadIdToken(resp);
      }
      FetchedResponseServedUntilExpiry(entries, accessCode1, accessCode2, grant, now, arrival, grant', later, arrival');
    }
  }
}

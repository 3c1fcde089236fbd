# insomnia-plugin-oidc-plus4u in Dafny

A Dafny model of two pieces of the Insomnia plugin that fetches identity tokens from oidc.plus4u.net.

- **The workspace migration** (`migrate-insomnia-from-auth-to-header.js`). It works on an exported Insomnia workspace that has already been parsed, and rewrites its `resources` in place in two passes.
  - The request pass finds every request with `bearer` authentication. It removes that request's `Authorization` headers and appends a single `Authorization: Bearer <token>` header. Then it deletes the `authentication` field.
  - The environment pass tries to match every value of every environment's `data` against the `plus4uToken` tag grammar `PLUGIN_RE`. A value that matches gets a trailing `true` argument. When the optional fifth argument is missing, the default OIDC server argument goes in front of the `true`.
- **The `plus4uToken` template tag** (`plugin.js`). Its `run` builds the cache key `accessCode1:accessCode2`. On a hit it answers from a TTL cache (NodeCache, ten minutes). On a miss it posts a password-grant record to the token endpoint, caches the answer, and returns its `id_token`.

Modules:

- `Wrappers` (`wrappers.dfy`): `Option`.
- `TemplateTag` (`template_tag.dfy`): the recogniser `ParseArgs` for `PLUGIN_RE` and its inverse `Render`. The recogniser accepts the literal `{% plus4uToken `, four comma-free arguments joined by `, `, an optional non-empty comma-free fifth argument, and the literal ` %}`. The module also has the regex's capture groups (`MatchPluginTag`) and the rewrite of one value (`MigrateValue`).
- `Migration` (`migration.dfy`): the resources as datatypes in an `array`. The two passes are methods with loops that rewrite the array in place (`MigrateRequests`, `MigrateEnvironments`, and inside the latter `MigrateEnvironmentData`, which overwrites the values of a `map` one key at a time). Each method is proved against a function of the old contents (`MigrateRequest`, `MigrateEnvironment`, `MigrateWorkspace`). `Migrate` runs both passes.
- `TokenTag` (`token_tag.dfy`): `TtlCache` is NodeCache with lazy expiry. `Plus4uTokenTag` holds the cache and a ghost record of the POSTs made, and its method `Run` is specified by the pure `RunSpec`. Two inputs are explicit parameters:
  - The clock (`Date.now()`, in milliseconds) is given twice: the instant of `cache.get` and the instant the POST's answer arrives, which is when `cache.set` reads the clock.
  - The HTTP POST is an oracle `grant: Credentials -> PostOutcome`.

JavaScript behaviour the model keeps:

- `Bearer ${token}` with an undefined token gives `"Bearer undefined"`.
- `Object.keys` of a missing `data`, or `.match` on a value that is not a string, throws. The script then stops before writing the file. `MigrateEnvironments` and `Migrate` return `false` in that case.
- NodeCache treats an entry as expired once `expiresAt < now`, where `expiresAt` is the set time plus 600 000 ms. So it serves the entry up to and including `T + 600000`.
- A `get` that finds an expired entry deletes it.
- A falsy cached value counts as a miss.
- A `null` answer is cached, and then reading `.id_token` from it throws a TypeError. Any other scalar answer gives `undefined`.
- A rejected POST throws and caches nothing.

`plugin.js` posts to a fixed token endpoint, builds the cache key from the two access codes alone, does not reject empty access codes, and does not look for an error map in the answer. The model does the same.

## Model

| member | source | states |
|---|---|---|
| TemplateTag.ParseSound | migrate-insomnia-from-auth-to-header.js:6 | every value the recogniser accepts has four or five comma-free arguments (a fifth one non-empty) and is exactly the tag rendered from them |
| TemplateTag.ParseRender | migrate-insomnia-from-auth-to-header.js:6 | a tag rendered from comma-free arguments is accepted exactly when there are four, or five with a non-empty fifth, and then yields those arguments back; six or more are rejected |
| TemplateTag.MatchRendered | migrate-insomnia-from-auth-to-header.js:6 | for a well-formed tag, capture group 1 is everything before the closing ` %}` and group 2 is the fifth argument, undefined when there are four |
| TemplateTag.MigrateFiveArgs | migrate-insomnia-from-auth-to-header.js:25-26 | a tag with a fifth argument becomes the same tag with `true` appended as a sixth argument |
| TemplateTag.MigrateFourArgs | migrate-insomnia-from-auth-to-header.js:27-28 | a tag with four arguments becomes the tag with `'https://oidc.plus4u.net/uu-oidcg01-main/0-0'` and then `true` appended |
| TemplateTag.MigrateMatched | migrate-insomnia-from-auth-to-header.js:24-29 | every matched value becomes the tag rendered from its arguments with `true` appended, preceded by the default OIDC server when the fifth argument was absent |
| TemplateTag.MigratedArgsRejected | migrate-insomnia-from-auth-to-header.js:6 | a tag with the migrated (six) arguments is not accepted by `PLUGIN_RE` |
| TemplateTag.MigrateChangesOnlyMatches | migrate-insomnia-from-auth-to-header.js:23-24 | the rewrite changes a value if and only if `PLUGIN_RE` matches it |
| TemplateTag.MigrateValueIdempotent | migrate-insomnia-from-auth-to-header.js:23-30 | a rewritten value no longer matches, so rewriting twice is rewriting once |
| Migration.WithoutAuthorizationKeepsOthers | migrate-insomnia-from-auth-to-header.js:14 | the header filter keeps no `Authorization` header, keeps the rest in their relative order (a subsequence), and keeps every other header as often as it occurred |
| Migration.BearerRequestMigrated | migrate-insomnia-from-auth-to-header.js:10-19 | a selected request ends with exactly one `Authorization` header, the last one, valued `Bearer ` + token; its non-`Authorization` headers are the old ones in order; `authentication` is gone; type, data and other fields are unchanged |
| Migration.BearerRequestWithoutHeaders | migrate-insomnia-from-auth-to-header.js:11-13 | a selected request with no `headers` field is treated as having none and ends up with the single `Authorization` header |
| Migration.RequestPassSelection | migrate-insomnia-from-auth-to-header.js:10 | the request pass changes a resource if and only if it is a `request` whose authentication has type `bearer` |
| Migration.MigrateRequests | migrate-insomnia-from-auth-to-header.js:10-20 | after the loop each array slot holds the request-pass image of what it held before |
| Migration.MigrateEnvironmentData | migrate-insomnia-from-auth-to-header.js:22-31 | succeeds exactly when every value is a string; then the key set is unchanged and each value is its tag rewrite |
| Migration.MigrateEnvironments | migrate-insomnia-from-auth-to-header.js:21-32 | succeeds exactly when no environment has missing or non-string data; then each environment's data is rewritten and nothing else changes; otherwise it stops at the first such environment, with the ones before rewritten and the rest untouched |
| Migration.EnvironmentMigrated | migrate-insomnia-from-auth-to-header.js:22-30 | an environment keeps its data keys; a value that does not match stays as it is; a matching one becomes the tag with the added arguments |
| Migration.PassesCommute | migrate-insomnia-from-auth-to-header.js:10-32 | the two passes touch disjoint resources, so their order does not matter |
| Migration.Migrate | migrate-insomnia-from-auth-to-header.js:10-32 | runs both passes; succeeds exactly when the workspace migration is defined, and the array then holds the migrated workspace |
| Migration.WorkspaceMigrationIdempotent | migrate-insomnia-from-auth-to-header.js:10-32 | migrating an already migrated workspace changes nothing |
| TokenTag.CacheKey | plugin.js:26 | the key is the first access code, a colon, then the second access code |
| TokenTag.CacheKeyNotInjective | plugin.js:26 | `("a:b", "")` and `("a", "b:")` produce the same key |
| TokenTag.CacheKeyInjectiveWithoutColon | plugin.js:26 | when neither first access code contains a colon, equal keys mean equal access codes |
| TokenTag.TtlCache.constructor | plugin.js:24 | a new cache is empty and gives each entry `stdTTL * 1000` ms |
| TokenTag.TtlCache.Get | plugin.js:27 | returns the stored value while `now <= expiresAt`, otherwise nothing; deletes an entry it finds expired |
| TokenTag.TtlCache.Set | plugin.js:36 | stores the value under the key, expiring TTL ms after the set time; no other key changes |
| TokenTag.Plus4uTokenTag.constructor | plugin.js:24 | the tag starts with an empty ten-minute cache and no POSTs made |
| TokenTag.Plus4uTokenTag.Run | plugin.js:25-39 | the result, the new cache and the POSTs made are those of `RunSpec` on the old cache |
| TokenTag.HitServesCachedResponse | plugin.js:27-28 | on a present, unexpired, truthy entry no POST is made, the cache is unchanged, and the result is that entry's `id_token` |
| TokenTag.MissPostsPasswordGrant | plugin.js:28-36 | on a miss exactly one POST is made, with `{accessCode1, accessCode2, grant_type: "password"}`; an answer is stored under the key with a fresh TTL and returned as its `id_token`; a rejection throws; no other key's entry changes |
| TokenTag.ResultIsIdTokenOfKeyEntry | plugin.js:38 | whenever `run` returns, its value is the `id_token` of the response the cache now holds for the key |
| TokenTag.EntryLifetime | plugin.js:24 | an entry stored at T is served by a lookup at `now` if and only if `now <= T + 600000` |
| TokenTag.FetchedResponseServedUntilExpiry | plugin.js:24-38 | after a call that fetched a truthy answer arriving at T, a later call with the same codes makes no POST if and only if it comes no later than T + 600000 |
| TokenTag.RepeatedCallPostsAtMostOnce | plugin.js:26-37 | two calls with the same access codes make at most one POST between them, when the first returns a token and the second comes within the TTL of the first's answer |

## Left out

- Reading and parsing the workspace file, serialising it, and writing it back (migration lines 5, 8-9, 33-34): the model works on already-parsed resources.
- JavaScript regular-expression semantics in general: only `PLUGIN_RE` is modelled, by a dedicated recogniser.
- JSON values are modelled only as far as the code reads them:
  - Header objects carry only `name` and `value`.
  - The fields of a resource that the script does not read are an opaque map.
  - A `headers` value that is not an array, and an authentication `type` or `token` that is not a string, are not modelled.
- The order in which `Object.keys` visits an environment's keys: the model visits them in no particular order. Each key's rewrite depends only on its own value.
- MigrateEnvironments: when a value is not a string, the script may already have rewritten some earlier keys of that environment. The model leaves that environment whole. The difference cannot be observed, because the script throws before writing the file.
- Aliasing between resources: the resources are values in array slots. A parsed JSON document has no shared objects.
- The HTTP POST via `r2` (plugin.js line 34): an oracle from the credential record to the outcome. The fixed endpoint URL is part of that oracle.
- NodeCache's `checkperiod` background sweep (plugin.js line 24): it only deletes entries that `get` already treats as absent. Value cloning is left out too.
- The `console.log` of the response (plugin.js line 35): it is output only.
- The template-tag registration metadata (plugin.js lines 8-23) and the unused `context` argument of `run`.
- Concurrency: two `run` calls interleaving at the `await` are not modelled. `Run` happens in one step, with its lookup at `now` and its store at `arrival`.
- Nothing outside `plugin.js` and `migrate-insomnia-from-auth-to-header.js` is modelled.

# Cloudflare discovery pipeline, in Dafny

This project models the discovery pipeline of the Cloudflare catalog
integration for Backstage, and proves properties of that model. The pipeline
has four parts.

- **Resource clients** (`CloudflareBaseClient` and the Workers, Pages, R2, D1,
  KV, Queues, AI service and Zero Trust clients). Each call is a function of
  the response its `get` receives, which is an input here. The model states:
  - which calls propagate a failure and which swallow it into `[]` or `null`;
  - how paths and query strings are assembled;
  - how find-by-key lookups and the "latest deployment" selection work (a
    filter, then a stable sort by creation time, then `[0]`);
  - what the audit-log and lifecycle exports return.
- **The retry loop** (`CloudflareBaseClient.request`). It is a class method
  with a `while` loop over a sequence of attempt outcomes. It records what
  each attempt sends and the backoff sleeps between attempts.
- **The entity mappers**. They cover `sanitizeName`, `createBaseEntity`, and
  the eleven `map` methods that turn provider records into catalog `Resource`
  entities.
- **The entity provider** (`CloudflareEntityProvider`). It is a class with
  `connection` and `scheduled` fields and a ghost log of the mutations handed
  to the catalog.
  - `connect` stores the connection.
  - `run` discovers the enabled kinds in a fixed order and applies one `full`
    mutation.
  - The `discover*` helpers are loops for workers, pages and R2, and
    `map` + `filter` functions for the other eight kinds.

One module per file:

| file | module | models |
|---|---|---|
| `common.dfy` | `Common` | `Option`, `Result`, the errors, JSON values, truthiness |
| `types.dfy` | `Types` | the record shapes the core reads |
| `encoding.dfy` | `Encoding` | decimal numerals, hex digests, base64 |
| `selection.dfy` | `Selection` | `find`, `filter`, the stable sort and its head |
| `api.dfy` | `Api` | the response envelope, `URLSearchParams`, `join` |
| `base_client.dfy` | `BaseClient` | configuration defaults, `request`, the verbs |
| `workers.dfy`, `pages.dfy`, `r2.dfy`, `data.dfy`, `ai_services.dfy`, `zero_trust.dfy` | one per client file | the client methods |
| `naming.dfy` | `Naming` | `sanitizeName` |
| `mappers.dfy` | `Mappers` | `createBaseEntity` and the eleven mappers |
| `provider.dfy` | `EntityProvider` | discovery, `connect` and `run` |

How the model is built:

- **Injected effects.** Network calls, the clock, `Math.random`, the
  catalog's `applyMutation` and the foreign encoders (`JSON.stringify`,
  SHA-256, `encodeURIComponent`) are parameters, each named in its member's
  doc comment.
- **`run`'s eleven blocks.** `run` repeats the same guarded block eleven
  times. The model writes it as one `for` loop over `KindOrder` (in
  `DiscoverAll`), which dispatches through `DiscoverKind` to the kind's
  helper. The order, the `import?.<kind> !== false` guard, the appends and
  the rethrow are unchanged. `DiscoverAll` is proved equal to `Discovery`, a
  fold of those blocks over the kinds, and the lemmas about `Discovery` hold
  the run-level properties.
- **Collection by `push`.** The loops of `discoverWorkers`,
  `discoverPages` and `discoverR2` are specified by `Collect`, the
  list-order collection of the items whose calls succeeded.

### Behaviour of the code worth knowing

- **Retries.** A non-2xx response is thrown inside the `try` and retried
  like a transport failure (`base.ts:57-71`). `Request` states this.
- **The `success` flag.** No code reads the envelope's `success` field.
  `Api.SuccessIgnored` proves that it changes no client result.
- **Mappers.** Every mapper returns an entity (the `Map*` contracts prove
  `r.Some?`). So the `if (entity)` guard of `discoverWorkers`,
  `discoverPages` and `discoverR2`, and the `filter(Boolean)` of the other
  eight `discover*` methods, never drop anything.
- **Names.** Names never collide across kinds
  (`Mappers.NamesDistinctAcrossKinds`). Within a kind, identifiers that
  differ only in case get the same name (`Naming.SanitizeNotInjective`).
- **Swallowed failures.** The AI clients' `list*` methods catch every error
  and return `[]`. The core clients' `list*` methods propagate, and `run`
  rethrows the failure. The model takes each kind's list outcome as a
  `Result`, so the propagation proved for it covers both kinds of client.
- **Sequential calls.** Every call is awaited in sequence, and the model
  keeps that order.

## Model

| member | source | states |
|---|---|---|
| `Api.ListOrFail` | packages/cloudflare-client/src/workers.ts:11-16 | `(await get(path)).result \|\| []` outside a `try`: fails exactly when the call failed, with its error; a missing `result` gives `[]`, a present one is returned |
| `Api.ListOrEmpty` | packages/cloudflare-client/src/workers.ts:35-44 | the same inside `try/catch { return [] }`: a failed call gives `[]`; a successful call gives its `result`, or `[]` when it has none; a non-empty answer always comes from a successful call |
| `Api.ListOrEmptyAgrees` | packages/cloudflare-client/src/workers.ts:35-44 | swallowing loses nothing else: the error-swallowing list equals the propagating list's value when it succeeds, `[]` otherwise |
| `Api.ItemOrNull` | packages/cloudflare-client/src/workers.ts:21-30 | `try { return result } catch { return null }`: non-null exactly when the call succeeded with a `result`, and then that result |
| `Api.SuccessIgnored` | packages/cloudflare-client/src/base.ts:55-63 | two envelopes with the same `result` give the same client answer whatever their `success` flags |
| `Api.Lookup` | packages/cloudflare-client/src/zero-trust.ts:21-28 | `params.get(k)` is absent exactly when no entry is named `k` |
| `Api.RemoveKey` | packages/cloudflare-client/src/zero-trust.ts:21-28 | removing `k` leaves no `k` entry and every other key's lookup unchanged |
| `Api.SetParam` | packages/cloudflare-client/src/zero-trust.ts:22 | `params.set(k, v)`: afterwards `k` looks up `v`, every other key is unchanged, and a new key is appended at the end |
| `Api.Entries` | packages/cloudflare-client/src/zero-trust.ts:21-28 | the entries left by conditional `set` calls on distinct keys are never more than the calls |
| `Api.EntriesKeysFresh` | packages/cloudflare-client/src/zero-trust.ts:21-28 | a key that no call sets does not occur in the query |
| `Api.EntriesLookup` | packages/cloudflare-client/src/zero-trust.ts:21-28 | with distinct keys, looking up the j-th key gives exactly the j-th call's value, or absent when it was skipped |
| `Api.EntriesEmpty` | packages/cloudflare-client/src/zero-trust.ts:21-30 | the query is empty exactly when every conditional `set` was skipped |
| `Api.LookupAppend` | packages/cloudflare-client/src/zero-trust.ts:21-28 | a lookup in two concatenated entry lists finds the first part's entry before the second's |
| `Api.SetStep` | packages/cloudflare-client/src/zero-trust.ts:21-28 | one conditional `set` with a fresh key takes the entries of the first i calls to those of the first i+1 |
| `Api.SetIfPresent` | packages/cloudflare-client/src/zero-trust.ts:22 | `if (value) params.set(key, value)`: appends the entry when present, changes nothing when absent, and keeps the query equal to the entries of the calls so far |
| `Api.Join` | packages/cloudflare-client/src/ai-services.ts:180 | `parts.join(sep)`: empty for no parts, the single part for one, never shorter than the first part |
| `Api.JoinEmpty` | packages/cloudflare-client/src/ai-services.ts:180 | joining non-empty parts gives `""` exactly when there are no parts |
| `Api.QueryString` | packages/cloudflare-client/src/zero-trust.ts:30 | `params.toString()` is empty exactly when there are no entries |
| `BaseClient.StringOr` | packages/cloudflare-client/src/base.ts:25 | `config.baseUrl \|\| default`: a non-empty value is kept, an absent or empty one gives the default |
| `BaseClient.NumberOr` | packages/cloudflare-client/src/base.ts:26-27 | `config.timeout \|\| 15000`: a non-zero value (negative included) is kept, an absent or zero one gives the default |
| `BaseClient.CloudflareBaseClient.constructor` | packages/cloudflare-client/src/base.ts:22-28 | account and token copied; base URL, timeout and retries take the defaults `https://api.cloudflare.com/client/v4`, 15000 and 3 as `\|\|` does |
| `BaseClient.AttemptError` | packages/cloudflare-client/src/base.ts:57-65 | a non-ok response becomes an API error with its status, status text and body; a thrown error is kept |
| `BaseClient.RequestHeaders` | packages/cloudflare-client/src/base.ts:34-39 | the headers are `Authorization: Bearer <token>` and the JSON content type, with the caller's headers spread over them and overriding them |
| `BaseClient.JitterBounds` | packages/cloudflare-client/src/base.ts:68 | the jitter factor `0.5 + random * 0.5` keeps at least half of the nominal delay and less than all of it |
| `BaseClient.Pow2` | packages/cloudflare-client/src/base.ts:68 | `Math.pow(2, attempt)`, at least 1 |
| `BaseClient.Backoff` | packages/cloudflare-client/src/base.ts:68 | the sleep after attempt a is at least min(500·2^a, 10000), below 1000·2^a and at most 10000 ms |
| `BaseClient.FirstSuccess` | packages/cloudflare-client/src/base.ts:42-63 | the first attempt among n whose response is ok: every earlier attempt failed, and it succeeded when below n |
| `BaseClient.FirstSuccessStable` | packages/cloudflare-client/src/base.ts:42-63 | allowing more attempts does not move an earlier first success |
| `BaseClient.CloudflareBaseClient.AttemptBudget` | packages/cloudflare-client/src/base.ts:42 | the loop allows `maxRetries` attempts, none when it is not positive |
| `BaseClient.CloudflareBaseClient.Request` | packages/cloudflare-client/src/base.ts:30-75 | succeeds exactly when some attempt within the budget gets an ok response, returning the first such body after k+1 sends and k sleeps; when all n > 0 attempts fail, it throws the last attempt's error after n sends and n-1 sleeps; a budget of zero throws `Request failed` without sending; every send goes to `baseUrl + path` with the merged headers; every sleep is the backoff of its attempt |
| `BaseClient.GetInit` | packages/cloudflare-client/src/base.ts:77-79 | `get` sends method GET and no body |
| `BaseClient.PostInit` | packages/cloudflare-client/src/base.ts:81-86 | `post` sends method POST and a body exactly when the body is truthy, serialised |
| `BaseClient.PutInit` | packages/cloudflare-client/src/base.ts:88-93 | `put` sends method PUT and a body exactly when the body is truthy, serialised |
| `BaseClient.DeleteInit` | packages/cloudflare-client/src/base.ts:95-97 | `delete` sends method DELETE and no body |
| `Encoding.NatToString` | packages/cloudflare-client/src/zero-trust.ts:27-28 | `n.toString()` for n ≥ 0 is a non-empty string of digits without a leading zero |
| `Encoding.NatToStringRoundTrip` | packages/cloudflare-client/src/zero-trust.ts:27-28 | reading the numeral back gives the number |
| `Encoding.IntToString` | packages/cloudflare-client/src/zero-trust.ts:27-28 | a negative number is `-` followed by its magnitude's numeral |
| `Encoding.Hex` | packages/cloudflare-client/src/r2.ts:58 | `digest('hex')` has two lower-case hex digits per byte |
| `Encoding.HexRoundTrip` | packages/cloudflare-client/src/r2.ts:58 | the hex text decodes back to the digest |
| `Encoding.Base64` | packages/cloudflare-client/src/zero-trust.ts:52 | `toString('base64')` has four characters per started group of three bytes |
| `Encoding.Base64Concat` | packages/cloudflare-client/src/zero-trust.ts:52 | a prefix of whole three-byte groups is encoded on its own, whatever follows |
| `Encoding.AsciiBytes` | packages/cloudflare-client/src/zero-trust.ts:52 | `Buffer.from` of ASCII text has one byte per character, its code |
| `Encoding.Prefix` | packages/cloudflare-client/src/zero-trust.ts:52 | `substring(0, n)` is a prefix of length min(n, length) |
| `Selection.FindIndex` | packages/cloudflare-client/src/r2.ts:25 | the index `find` stops at: it satisfies the predicate, no earlier element does, and there is none exactly when no element does |
| `Selection.Find` | packages/cloudflare-client/src/data.ts:41 | `find(p) \|\| null`: null exactly when no element satisfies p, otherwise the first element that does |
| `Selection.Filter` | packages/cloudflare-client/src/pages.ts:65 | `filter(p)` keeps exactly the elements satisfying p, never more than the list; it is `[]` for `[]` and `[x]` or `[]` for `[x]`, which with `FilterAppend` fixes the order of what is kept |
| `Selection.FilterAppend` | packages/cloudflare-client/src/pages.ts:65 | filtering a concatenation is filtering each part, in order |
| `Selection.FilterIndex` | packages/cloudflare-client/src/pages.ts:65 | the k-th kept element is some list element `xs[i]` satisfying p, and the elements kept before it are exactly those kept from `xs[..i]` |
| `Selection.FilterFirstMax` | packages/cloudflare-client/src/pages.ts:65-74 | the first maximum of the kept elements is a list element before which every kept element has a strictly smaller key |
| `Selection.FirstMaxIndex` | packages/cloudflare-client/src/workers.ts:55-59 | a non-empty list has an index of maximal key with no earlier element of that key |
| `Selection.FirstMaxUnique` | packages/cloudflare-client/src/workers.ts:55-59 | that index is unique |
| `Selection.InsertDesc` | packages/cloudflare-client/src/workers.ts:55-59 | one stable insertion step: a permutation of the list plus the element, whose head is the new element exactly when it is at least the old head's key |
| `Selection.InsertDescSorted` | packages/cloudflare-client/src/workers.ts:55-59 | the insertion step keeps the list sorted by decreasing key |
| `Selection.SortDesc` | packages/cloudflare-client/src/workers.ts:55-59 | the sort is a permutation of its input |
| `Selection.SortDescSorted` | packages/cloudflare-client/src/workers.ts:55-59 | the sort orders by decreasing key |
| `Selection.SortDescHead` | packages/cloudflare-client/src/workers.ts:55-59 | the head of the stably sorted list is the first element of maximal key |
| `Selection.Latest` | packages/cloudflare-client/src/workers.ts:55-59 | `sort(byKeyDesc)[0]` is the first element of maximal key |
| `Workers.ListScripts` | packages/cloudflare-client/src/workers.ts:11-16 | `listScripts` propagates a failure and gives `result` or `[]` |
| `Workers.GetScript` | packages/cloudflare-client/src/workers.ts:21-30 | `getScript` is null on any failure or a missing result |
| `Workers.ListDeployments` | packages/cloudflare-client/src/workers.ts:35-44 | `listDeployments` is `[]` on any failure or a missing result |
| `Workers.GetLatestDeployment` | packages/cloudflare-client/src/workers.ts:49-60 | null exactly when the deployment list is empty; otherwise the first deployment of greatest `created_on`, with a missing time counting as 0 |
| `Pages.ListProjects` | packages/cloudflare-client/src/pages.ts:11-16 | `listProjects` propagates a failure and gives `result` or `[]` |
| `Pages.GetProject` | packages/cloudflare-client/src/pages.ts:21-30 | `getProject` is null on any failure |
| `Pages.ListDeployments` | packages/cloudflare-client/src/pages.ts:35-44 | asks for the given page and page size (1 and 25 by default) and is `[]` on any failure |
| `Pages.PagingPaths` | packages/cloudflare-client/src/pages.ts:35-64 | the default path ends `?page=1&per_page=25`; the latest-production lookup asks for `?page=1&per_page=10` |
| `Pages.GetDeployment` | packages/cloudflare-client/src/pages.ts:49-58 | `getDeployment` is null on any failure |
| `Pages.GetLatestProductionDeployment` | packages/cloudflare-client/src/pages.ts:63-75 | reads only page 1 of 10; null exactly when no deployment there is `production`; otherwise the first production deployment of greatest creation time |
| `Pages.LatestProductionIsNewest` | packages/cloudflare-client/src/pages.ts:65-74 | the result is a production deployment of that page; no production deployment there is newer; and every production deployment listed before it is strictly older, so ties go to the earliest in response order |
| `R2.ListBuckets` | packages/cloudflare-client/src/r2.ts:12-17 | `listBuckets` propagates a failure and gives `result.buckets`, or `[]` when either is missing |
| `R2.GetBucket` | packages/cloudflare-client/src/r2.ts:22-29 | null when the list fails or no bucket has exactly that name; otherwise the first bucket with that name |
| `R2.GetLifecycle` | packages/cloudflare-client/src/r2.ts:34-44 | `getLifecycle` never fails: null on any failure, otherwise the result |
| `R2.DigestHash` | packages/cloudflare-client/src/r2.ts:58-62 | the hash is `sha256:` followed by 64 hex digits |
| `R2.DigestHashInjective` | packages/cloudflare-client/src/r2.ts:58-62 | equal hashes come from equal digests |
| `R2.ExportLifecycle` | packages/cloudflare-client/src/r2.ts:48-65 | null exactly when `getLifecycle` gave null; otherwise the lifecycle unchanged, the timestamp, and the hash of the digest of `{ lifecycle, timestamp }` serialised with that same timestamp |
| `Data.ListDatabases` | packages/cloudflare-client/src/data.ts:8-13 | propagates a failure and gives `result` or `[]` |
| `Data.GetDatabase` | packages/cloudflare-client/src/data.ts:15-24 | null on any failure |
| `Data.ListNamespaces` | packages/cloudflare-client/src/data.ts:31-36 | propagates a failure and gives `result` or `[]` |
| `Data.GetNamespace` | packages/cloudflare-client/src/data.ts:38-45 | null when the list fails or no namespace has that id; otherwise the first namespace with that id |
| `Data.KeysPath` | packages/cloudflare-client/src/data.ts:47-52 | the path ends `/keys?limit=<limit>`, followed by `&prefix=` and the encoded prefix exactly when the prefix is non-empty |
| `Data.DefaultKeysPath` | packages/cloudflare-client/src/data.ts:47-49 | without a limit the path asks for `limit=100` |
| `Data.ListKeys` | packages/cloudflare-client/src/data.ts:47-58 | requests that path and is `[]` on any failure or a missing result |
| `Data.ListQueues` | packages/cloudflare-client/src/data.ts:65-70 | propagates a failure and gives `result` or `[]` |
| `Data.GetQueue` | packages/cloudflare-client/src/data.ts:72-81 | null on any failure |
| `AiServices.ListGateways` | packages/cloudflare-client/src/ai-services.ts:20-29 | never fails: `[]` on any failure or a missing result |
| `AiServices.GetGateway` | packages/cloudflare-client/src/ai-services.ts:31-40 | null on any failure |
| `AiServices.ListVectorizeIndexes` | packages/cloudflare-client/src/ai-services.ts:47-56 | never fails: `[]` on any failure or a missing result |
| `AiServices.GetVectorizeIndex` | packages/cloudflare-client/src/ai-services.ts:58-67 | null on any failure |
| `AiServices.ListDatasets` | packages/cloudflare-client/src/ai-services.ts:74-84 | never fails: `[]` on any failure or a missing result |
| `AiServices.ListStores` | packages/cloudflare-client/src/ai-services.ts:91-101 | never fails: `[]` on any failure or a missing result |
| `AiServices.ListConfigs` | packages/cloudflare-client/src/ai-services.ts:108-117 | never fails: `[]` on any failure or a missing result |
| `AiServices.GetConfig` | packages/cloudflare-client/src/ai-services.ts:119-128 | null on any failure |
| `AiServices.ListServices` | packages/cloudflare-client/src/ai-services.ts:135-145 | never fails: `[]` on any failure or a missing result |
| `AiServices.ListWorkflows` | packages/cloudflare-client/src/ai-services.ts:152-161 | never fails: `[]` on any failure or a missing result |
| `AiServices.GetWorkflow` | packages/cloudflare-client/src/ai-services.ts:163-172 | null on any failure |
| `AiServices.RunsParams` | packages/cloudflare-client/src/ai-services.ts:177-179 | at most two query parts, none exactly when both `from` and `to` are falsy |
| `AiServices.RunsPath` | packages/cloudflare-client/src/ai-services.ts:176-180 | the path `listRuns` requests; `RunsPathShapes` gives its four shapes |
| `AiServices.RunsPathShapes` | packages/cloudflare-client/src/ai-services.ts:176-180 | the runs path is followed by `?from=..&to=..`, `?from=..`, `?to=..` or nothing, by which of the two are truthy, unencoded |
| `AiServices.ListRuns` | packages/cloudflare-client/src/ai-services.ts:174-187 | the pushes and the conditional `?` build exactly that path; `[]` on any failure or a missing result |
| `AiServices.ListClasses` | packages/cloudflare-client/src/ai-services.ts:194-203 | never fails: `[]` on any failure or a missing result |
| `AiServices.ListSearchIndexes` | packages/cloudflare-client/src/ai-services.ts:210-220 | never fails: `[]` on any failure or a missing result |
| `AiServices.GetSearchIndex` | packages/cloudflare-client/src/ai-services.ts:222-231 | null on any failure |
| `AiServices.GetQuotas` | packages/cloudflare-client/src/ai-services.ts:238-248 | null on any failure |
| `ZeroTrust.AuditSettings` | packages/cloudflare-client/src/zero-trust.ts:21-28 | seven conditional `set` calls, in source order |
| `ZeroTrust.AuditKeysDistinct` | packages/cloudflare-client/src/zero-trust.ts:21-28 | the seven query keys are distinct |
| `ZeroTrust.AuditQuery` | packages/cloudflare-client/src/zero-trust.ts:21-28 | the query of `getAuditLogs`: the entries of the seven conditional `set` calls; `AuditQueryLookup` states what each key holds |
| `ZeroTrust.AuditQueryLookup` | packages/cloudflare-client/src/zero-trust.ts:21-28 | each parameter lands under its key (`actor.email`, `action.type`, `resource.id`, `since`, `before`, `page`, `per_page`) exactly when truthy, so an empty string or a `0` page is left out; numbers are written in decimal |
| `ZeroTrust.BuildAuditQuery` | packages/cloudflare-client/src/zero-trust.ts:21-28 | the successive conditional `set` calls build exactly that query |
| `ZeroTrust.SetFilters` | packages/cloudflare-client/src/zero-trust.ts:22-24 | the first three conditional `set` calls (`actor.email`, `action.type`, `resource.id`) take the empty query to the entries of those three calls |
| `ZeroTrust.SetWindow` | packages/cloudflare-client/src/zero-trust.ts:25-28 | the last four (`since`, `before`, `page`, `per_page`) take those entries to the entries of all seven calls |
| `ZeroTrust.AuditLogsPathBare` | packages/cloudflare-client/src/zero-trust.ts:30-31 | the path has no `?` exactly when every parameter is falsy |
| `ZeroTrust.AuditLogsPath` | packages/cloudflare-client/src/zero-trust.ts:30-31 | `/accounts/<id>/audit_logs`, followed by `?` and the encoded query when it is not empty; `AuditLogsPathBare` states when there is none |
| `ZeroTrust.GetAuditLogs` | packages/cloudflare-client/src/zero-trust.ts:11-38 | requests the audit-log path with that query; `[]` on any failure or a missing result |
| `ZeroTrust.BoundsParams` | packages/cloudflare-client/src/zero-trust.ts:43-47 | `exportAuditLogs` passes only `since` and `before` on, and nothing when it got nothing |
| `ZeroTrust.AuditHashAsWritten` | packages/cloudflare-client/src/zero-trust.ts:49-56 | the hash, `sha256:` and at most 16 base64 characters, is never longer than 23 characters, however long the snapshot |
| `ZeroTrust.AuditHashIsConstant` | packages/cloudflare-client/src/zero-trust.ts:49-56 | any text starting with the indented-JSON head `{\n  "logs": ` hashes to `sha256:ewogICJsb2dzIjog` |
| `ZeroTrust.HeadBytes` | packages/cloudflare-client/src/zero-trust.ts:49 | the head is the twelve bytes 123 10 32 32 34 108 111 103 115 34 58 32 |
| `ZeroTrust.HeadBase64` | packages/cloudflare-client/src/zero-trust.ts:52 | those twelve bytes encode as `ewogICJsb2dzIjog` |
| `ZeroTrust.ExportAuditLogsAsWritten` | packages/cloudflare-client/src/zero-trust.ts:43-59 | the export as written: `data` is what `getAuditLogs(params)` gave, `timestamp` the one serialised, and `hash` the same constant for every export |
| `ZeroTrust.ExportAuditLogs` | packages/cloudflare-client/src/zero-trust.ts:43-59 | the corrected export: the same `data` and `timestamp`, with `hash` the `sha256:` hex digest of the serialised `{ logs, timestamp, params }` |
| `ZeroTrust.ExportHashSeparates` | packages/cloudflare-client/src/zero-trust.ts:49-56 | digests that differ give different corrected hashes, while any two as-written hashes are equal |
| `ZeroTrust.UsersSettings` | packages/cloudflare-client/src/zero-trust.ts:66-68 | two conditional `set` calls on distinct keys, `since` then `before` |
| `ZeroTrust.UsersPath` | packages/cloudflare-client/src/zero-trust.ts:70-71 | `/accounts/<id>/access/users`, followed by `?` and the encoded query when it is not empty; `UsersQueryLookup` states what the query holds |
| `ZeroTrust.UsersQueryLookup` | packages/cloudflare-client/src/zero-trust.ts:66-71 | `since` and `before` land under their keys exactly when non-empty; the query is empty exactly when both are falsy |
| `ZeroTrust.BuildUsersQuery` | packages/cloudflare-client/src/zero-trust.ts:66-68 | the two conditional `set` calls build exactly that query |
| `ZeroTrust.GetUsers` | packages/cloudflare-client/src/zero-trust.ts:64-78 | requests `/access/users` with that query; `[]` on any failure or a missing result |
| `Naming.LeadingRun` | packages/cloudflare-entity-provider/src/mappers.ts:69 | the length of the leading run that `/^[^a-z0-9]+/` removes: no letter or digit in it, and one right after it |
| `Naming.TrailingStart` | packages/cloudflare-entity-provider/src/mappers.ts:70 | where the trailing run that `/[^a-z0-9]+$/` removes starts: no letter or digit after it, and one right before it |
| `Naming.ToLowerCase` | packages/cloudflare-entity-provider/src/mappers.ts:67 | `toLowerCase` on ASCII; its properties are `ToLowerCaseSpec` |
| `Naming.ToLowerCaseSpec` | packages/cloudflare-entity-provider/src/mappers.ts:67 | each upper-case letter becomes its lower-case letter, every other character stays in place, and no upper-case letter is left |
| `Naming.ReplaceInvalid` | packages/cloudflare-entity-provider/src/mappers.ts:68 | `.replace(/[^a-z0-9-_.]/g, '-')`; its properties are `ReplaceInvalidSpec` |
| `Naming.ReplaceInvalidSpec` | packages/cloudflare-entity-provider/src/mappers.ts:68 | same length, only `a-z 0-9 - _ .` left, valid characters kept in place, every other one turned into `-` |
| `Naming.TrimLeading` | packages/cloudflare-entity-provider/src/mappers.ts:69 | `.replace(/^[^a-z0-9]+/, '')`, cutting `LeadingRun`; its properties are `TrimLeadingSpec` |
| `Naming.TrimLeadingSpec` | packages/cloudflare-entity-provider/src/mappers.ts:69 | a suffix of the input, starting with a letter or a digit when not empty; the dropped part holds no letter or digit |
| `Naming.TrimTrailing` | packages/cloudflare-entity-provider/src/mappers.ts:70 | `.replace(/[^a-z0-9]+$/, '')`, cutting at `TrailingStart`; its properties are `TrimTrailingSpec` |
| `Naming.TrimTrailingSpec` | packages/cloudflare-entity-provider/src/mappers.ts:70 | a prefix of the input, ending with a letter or a digit when not empty; the dropped part holds no letter or digit |
| `Naming.SanitizeName` | packages/cloudflare-entity-provider/src/mappers.ts:64-71 | the output has only `a-z 0-9 - _ .`, is empty or starts and ends with a letter or digit, and is never longer than the input |
| `Naming.SanitizedIsFixed` | packages/cloudflare-entity-provider/src/mappers.ts:64-71 | a name that is already valid is left unchanged |
| `Naming.SanitizeIdempotent` | packages/cloudflare-entity-provider/src/mappers.ts:64-71 | sanitizing twice is sanitizing once |
| `Naming.SanitizeKeepsStem` | packages/cloudflare-entity-provider/src/mappers.ts:49 | a valid stem followed by `-` and any identifier survives as the name's prefix |
| `Naming.DistinctStemsDistinctNames` | packages/cloudflare-entity-provider/src/mappers.ts:64-71 | two valid stems, neither a prefix of the other, give different names for any identifiers |
| `Naming.SanitizeExample` | packages/cloudflare-entity-provider/src/mappers.ts:64-71 | `cf-r2-Beta!` becomes `cf-r2-beta` |
| `Naming.SanitizeNotInjective` | packages/cloudflare-entity-provider/src/mappers.ts:64-71 | `cf-kv-A` and `cf-kv-a` give the same name |
| `Mappers.CreateBaseEntity` | packages/cloudflare-entity-provider/src/mappers.ts:38-62 | API version `backstage.io/v1alpha1`, the given kind and type, the sanitized name, description `''` when falsy, tags `[]` when absent, the account annotation, owner `defaultOwner` when non-empty and `unknown` otherwise (an empty string included), a `system` key exactly when `defaultSystem` is truthy, no parameters |
| `Mappers.Owner` | packages/cloudflare-entity-provider/src/mappers.ts:58 | `defaultOwner \|\| 'unknown'`: never empty, and the configured owner when it is non-empty |
| `Mappers.System` | packages/cloudflare-entity-provider/src/mappers.ts:59 | `system` is present exactly when `defaultSystem` is truthy, and then is that non-empty value |
| `Mappers.IsResourceOf` | packages/cloudflare-entity-provider/src/mappers.ts:38-62 | the predicate every mapper's result satisfies: a `Resource` of the kind's type, named `sanitizeName(<stem>-<id>)`, with the account annotation, owner, system and `accountId` parameter; the `Map*` contracts and the provenance lemmas are stated with it |
| `Mappers.ResourceEntity` | packages/cloudflare-entity-provider/src/mappers.ts:81-90 | a `Resource` of the kind's type, named after the kind's stem and the identifier, carrying exactly the given parameters, which include `accountId` |
| `Mappers.MapWorker` | packages/cloudflare-entity-provider/src/mappers.ts:79-105 | never null; keys `accountId`, `scriptName`, `usageModel`, plus `lastDeployment` exactly when a deployment is passed, and then its summary |
| `Mappers.PagesParameters` | packages/cloudflare-entity-provider/src/mappers.ts:126-135 | the five keys every Pages entity has, with missing `domains` as `[]` |
| `Mappers.MapPages` | packages/cloudflare-entity-provider/src/mappers.ts:110-140 | never null; keys `accountId`, `projectName`, `subdomain`, `domains` (default `[]`), `productionBranch`, plus `lastDeployment` exactly when a deployment is passed |
| `Mappers.MapR2` | packages/cloudflare-entity-provider/src/mappers.ts:145-164 | never null; keys `accountId`, `bucketName`, `creationDate`, plus `lifecycle` exactly when lifecycle rules are passed |
| `Mappers.MapD1` | packages/cloudflare-entity-provider/src/mappers.ts:169-191 | never null; named after the uuid; the seven D1 keys |
| `Mappers.MapKV` | packages/cloudflare-entity-provider/src/mappers.ts:196-215 | never null; named after the namespace id; the four KV keys |
| `Mappers.MapQueue` | packages/cloudflare-entity-provider/src/mappers.ts:220-242 | never null; named after the queue name; producers and consumers default to `[]` |
| `Mappers.MapAIGateway` | packages/cloudflare-entity-provider/src/mappers.ts:248-269 | never null; named after the gateway id; the gateway keys |
| `Mappers.MapVectorize` | packages/cloudflare-entity-provider/src/mappers.ts:271-291 | never null; named after the index name; the index keys |
| `Mappers.MapWorkflow` | packages/cloudflare-entity-provider/src/mappers.ts:293-313 | never null; named after the workflow name; the workflow keys |
| `Mappers.MapDurableObject` | packages/cloudflare-entity-provider/src/mappers.ts:315-334 | never null; named after the class; the four keys |
| `Mappers.MapAISearch` | packages/cloudflare-entity-provider/src/mappers.ts:337-357 | never null; named after the index name; the index keys |
| `Mappers.EnrichmentOnlyAddsKey` | packages/cloudflare-entity-provider/src/mappers.ts:93-100 | spreading `...(x && { key: v })` over parameters without that key adds only that key: everything else about the entity is the same with or without it |
| `Mappers.WorkerEnrichmentOnlyAddsKey` | packages/cloudflare-entity-provider/src/mappers.ts:93-100 | a Worker entity with a deployment differs from one without only by `lastDeployment` |
| `Mappers.PagesEnrichmentOnlyAddsKey` | packages/cloudflare-entity-provider/src/mappers.ts:126-135 | a Pages entity with a deployment differs from one without only by `lastDeployment` |
| `Mappers.R2EnrichmentOnlyAddsKey` | packages/cloudflare-entity-provider/src/mappers.ts:155-160 | an R2 entity with lifecycle rules differs from one without only by `lifecycle` |
| `Mappers.StemsPrefixFree` | packages/cloudflare-entity-provider/src/mappers.ts:79-357 | no kind's name stem (`cf-worker`, `cf-pages`, …) is a prefix of another's |
| `Mappers.StemIsSanitized` | packages/cloudflare-entity-provider/src/mappers.ts:79-357 | every stem is already a valid, non-empty name |
| `Mappers.NamesDistinctAcrossKinds` | packages/cloudflare-entity-provider/src/mappers.ts:49 | entities of two different kinds never share a name, whatever their identifiers |
| `EntityProvider.EnabledUnlessFalse` | packages/cloudflare-entity-provider/src/CloudflareEntityProvider.ts:115 | a kind is discovered unless its `import` flag is exactly `false`; no `import` object enables every kind |
| `EntityProvider.Enabled` | packages/cloudflare-entity-provider/src/CloudflareEntityProvider.ts:115 | `this.config.import?.<kind> !== false`; `EnabledUnlessFalse` states when it holds |
| `EntityProvider.MapperConfig` | packages/cloudflare-entity-provider/src/CloudflareEntityProvider.ts:208-212 | every mapper gets the provider's account, default owner and default system |
| `EntityProvider.ProviderName` | packages/cloudflare-entity-provider/src/CloudflareEntityProvider.ts:84-86 | a fixed 27-character prefix (`cloudflare-entity-provider:`) followed by the account id |
| `EntityProvider.ProviderNameInjective` | packages/cloudflare-entity-provider/src/CloudflareEntityProvider.ts:84-86 | providers of different accounts have different names |
| `EntityProvider.Kept` | packages/cloudflare-entity-provider/src/CloudflareEntityProvider.ts:220-223 | an item contributes its entity when its calls succeeded and the mapper gave one, nothing otherwise |
| `EntityProvider.Collect` | packages/cloudflare-entity-provider/src/CloudflareEntityProvider.ts:217-227 | the per-item loop yields at most one entity per item |
| `EntityProvider.CollectProvenance` | packages/cloudflare-entity-provider/src/CloudflareEntityProvider.ts:217-227 | every collected entity is what some item's processing returned |
| `EntityProvider.CollectAppend` | packages/cloudflare-entity-provider/src/CloudflareEntityProvider.ts:217-227 | collecting two parts of a list gives the two parts' entities in list order |
| `EntityProvider.FailureSkipsOnlyItem` | packages/cloudflare-entity-provider/src/CloudflareEntityProvider.ts:218-226 | an item whose enrichment or mapping throws is skipped, and the items around it are collected as if it were absent |
| `EntityProvider.CollectAllPresent` | packages/cloudflare-entity-provider/src/CloudflareEntityProvider.ts:290 | when every item yields an entity, there is one entity per item, in list order |
| `EntityProvider.Over` | packages/cloudflare-entity-provider/src/CloudflareEntityProvider.ts:214-229 | a kind fails exactly when its list call fails, with that error, and otherwise yields the collection of its list |
| `EntityProvider.WorkerItem` | packages/cloudflare-entity-provider/src/CloudflareEntityProvider.ts:218-226 | the `try` body for one script: its latest deployment (`null` passed on as `undefined`), then the mapper; a throw gives `Err`, which `Collect` skips |
| `EntityProvider.PagesItem` | packages/cloudflare-entity-provider/src/CloudflareEntityProvider.ts:243-251 | the `try` body for one project: its latest production deployment, then the mapper; a throw gives `Err` |
| `EntityProvider.R2Item` | packages/cloudflare-entity-provider/src/CloudflareEntityProvider.ts:268-276 | the `try` body for one bucket: its lifecycle rules, then the mapper; a throw gives `Err` |
| `EntityProvider.DiscoverWorkers` | packages/cloudflare-entity-provider/src/CloudflareEntityProvider.ts:207-230 | the `for`/`try` loop returns the list failure, or the entities of the scripts whose deployment lookup and mapping succeeded, in list order |
| `EntityProvider.DiscoverPages` | packages/cloudflare-entity-provider/src/CloudflareEntityProvider.ts:232-255 | the same for the projects and their latest production deployments |
| `EntityProvider.DiscoverR2` | packages/cloudflare-entity-provider/src/CloudflareEntityProvider.ts:257-280 | the same for the buckets and their lifecycle rules |
| `EntityProvider.DiscoverD1` | packages/cloudflare-entity-provider/src/CloudflareEntityProvider.ts:282-291 | `discoverD1()`: the list, each record through its mapper, then `filter(Boolean)`; a list failure propagates. `DiscoverD1Maps` states what it yields |
| `EntityProvider.DiscoverD1Maps` | packages/cloudflare-entity-provider/src/CloudflareEntityProvider.ts:282-291 | `map` + `filter(Boolean)`: fails exactly when the list fails, otherwise one entity per database, in order, each the mapper's |
| `EntityProvider.DiscoverKV` | packages/cloudflare-entity-provider/src/CloudflareEntityProvider.ts:293-302 | `discoverKV()`: the list, each record through its mapper, then `filter(Boolean)`; a list failure propagates. `DiscoverKVMaps` states what it yields |
| `EntityProvider.DiscoverKVMaps` | packages/cloudflare-entity-provider/src/CloudflareEntityProvider.ts:293-302 | the same for the KV namespaces |
| `EntityProvider.DiscoverQueues` | packages/cloudflare-entity-provider/src/CloudflareEntityProvider.ts:304-313 | `discoverQueues()`: the list, each record through its mapper, then `filter(Boolean)`; a list failure propagates. `DiscoverQueuesMaps` states what it yields |
| `EntityProvider.DiscoverQueuesMaps` | packages/cloudflare-entity-provider/src/CloudflareEntityProvider.ts:304-313 | the same for the queues |
| `EntityProvider.DiscoverAIGateway` | packages/cloudflare-entity-provider/src/CloudflareEntityProvider.ts:315-324 | `discoverAIGateway()`: the list, each record through its mapper, then `filter(Boolean)`; a list failure propagates. `DiscoverAIGatewayMaps` states what it yields |
| `EntityProvider.DiscoverAIGatewayMaps` | packages/cloudflare-entity-provider/src/CloudflareEntityProvider.ts:315-324 | the same for the AI gateways |
| `EntityProvider.DiscoverVectorize` | packages/cloudflare-entity-provider/src/CloudflareEntityProvider.ts:326-335 | `discoverVectorize()`: the list, each record through its mapper, then `filter(Boolean)`; a list failure propagates. `DiscoverVectorizeMaps` states what it yields |
| `EntityProvider.DiscoverVectorizeMaps` | packages/cloudflare-entity-provider/src/CloudflareEntityProvider.ts:326-335 | the same for the Vectorize indexes |
| `EntityProvider.DiscoverWorkflows` | packages/cloudflare-entity-provider/src/CloudflareEntityProvider.ts:337-346 | `discoverWorkflows()`: the list, each record through its mapper, then `filter(Boolean)`; a list failure propagates. `DiscoverWorkflowsMaps` states what it yields |
| `EntityProvider.DiscoverWorkflowsMaps` | packages/cloudflare-entity-provider/src/CloudflareEntityProvider.ts:337-346 | the same for the workflows |
| `EntityProvider.DiscoverDurableObjects` | packages/cloudflare-entity-provider/src/CloudflareEntityProvider.ts:348-357 | `discoverDurableObjects()`: the list, each record through its mapper, then `filter(Boolean)`; a list failure propagates. `DiscoverDurableObjectsMaps` states what it yields |
| `EntityProvider.DiscoverDurableObjectsMaps` | packages/cloudflare-entity-provider/src/CloudflareEntityProvider.ts:348-357 | the same for the Durable Object classes |
| `EntityProvider.DiscoverAISearch` | packages/cloudflare-entity-provider/src/CloudflareEntityProvider.ts:359-368 | `discoverAISearch()`: the list, each record through its mapper, then `filter(Boolean)`; a list failure propagates. `DiscoverAISearchMaps` states what it yields |
| `EntityProvider.DiscoverAISearchMaps` | packages/cloudflare-entity-provider/src/CloudflareEntityProvider.ts:359-368 | the same for the AI Search indexes |
| `EntityProvider.KindOrderComplete` | packages/cloudflare-entity-provider/src/CloudflareEntityProvider.ts:113-189 | every one of the eleven kinds is visited, exactly once |
| `EntityProvider.KindEntities` | packages/cloudflare-entity-provider/src/CloudflareEntityProvider.ts:113-189 | the `discover*` call of one kind; `KindFailsOnlyOnList` and `KindProvenance` state what it yields |
| `EntityProvider.KindFailsOnlyOnList` | packages/cloudflare-entity-provider/src/CloudflareEntityProvider.ts:207-368 | a kind's discovery fails exactly when its list call fails; per-item failures never fail it |
| `EntityProvider.KindProvenance` | packages/cloudflare-entity-provider/src/CloudflareEntityProvider.ts:207-368 | every entity a kind discovers is a resource of that kind, named after one of its identifiers |
| `EntityProvider.WorkersProvenance` | packages/cloudflare-entity-provider/src/CloudflareEntityProvider.ts:207-230 | every Worker entity is a Worker resource |
| `EntityProvider.PagesProvenance` | packages/cloudflare-entity-provider/src/CloudflareEntityProvider.ts:232-255 | every Pages entity is a Pages resource |
| `EntityProvider.R2Provenance` | packages/cloudflare-entity-provider/src/CloudflareEntityProvider.ts:257-280 | every R2 entity is an R2 resource |
| `EntityProvider.D1Provenance` | packages/cloudflare-entity-provider/src/CloudflareEntityProvider.ts:282-291 | every D1 entity is a D1 resource |
| `EntityProvider.KVProvenance` | packages/cloudflare-entity-provider/src/CloudflareEntityProvider.ts:293-302 | every KV entity is a KV resource |
| `EntityProvider.QueuesProvenance` | packages/cloudflare-entity-provider/src/CloudflareEntityProvider.ts:304-313 | every queue entity is a queue resource |
| `EntityProvider.AIGatewayProvenance` | packages/cloudflare-entity-provider/src/CloudflareEntityProvider.ts:315-324 | every gateway entity is a gateway resource |
| `EntityProvider.VectorizeProvenance` | packages/cloudflare-entity-provider/src/CloudflareEntityProvider.ts:326-335 | every Vectorize entity is a Vectorize resource |
| `EntityProvider.WorkflowsProvenance` | packages/cloudflare-entity-provider/src/CloudflareEntityProvider.ts:337-346 | every workflow entity is a workflow resource |
| `EntityProvider.DurableObjectsProvenance` | packages/cloudflare-entity-provider/src/CloudflareEntityProvider.ts:348-357 | every Durable Object entity is a Durable Object resource |
| `EntityProvider.AISearchProvenance` | packages/cloudflare-entity-provider/src/CloudflareEntityProvider.ts:359-368 | every AI Search entity is an AI Search resource |
| `EntityProvider.Step` | packages/cloudflare-entity-provider/src/CloudflareEntityProvider.ts:113-189 | one guarded block of `run`: a failure met earlier stands, a disabled kind adds nothing, an enabled one appends its entities or ends discovery with its error |
| `EntityProvider.Blocks` | packages/cloudflare-entity-provider/src/CloudflareEntityProvider.ts:113-189 | the blocks for a list of kinds, in order, folded with `Step`; `BlocksSplit`, `BlocksFailure`, `BlocksGrow`, `BlocksPrefix` and `BlocksAddResources` state its properties |
| `EntityProvider.Discovery` | packages/cloudflare-entity-provider/src/CloudflareEntityProvider.ts:111-189 | the eleven blocks in `run`'s order from no entities; `DiscoveryFailsOnlyOnLists`, `DiscoveredAreResources` and `KindsNeverCollide` state what it yields |
| `EntityProvider.FailureStands` | packages/cloudflare-entity-provider/src/CloudflareEntityProvider.ts:201-204 | once a block throws, no later block runs and the error is what `run` rethrows |
| `EntityProvider.BlocksSplit` | packages/cloudflare-entity-provider/src/CloudflareEntityProvider.ts:113-189 | running the blocks of one list of kinds and then another is running the blocks of both, in order |
| `EntityProvider.BlocksFailure` | packages/cloudflare-entity-provider/src/CloudflareEntityProvider.ts:113-204 | the blocks fail exactly when some enabled kind's list call fails, and then with the error of the first such kind |
| `EntityProvider.BlocksGrow` | packages/cloudflare-entity-provider/src/CloudflareEntityProvider.ts:111-189 | entities only accumulate: what earlier blocks pushed is a prefix of the final list |
| `EntityProvider.BlocksPrefix` | packages/cloudflare-entity-provider/src/CloudflareEntityProvider.ts:111-189 | the entities of the first n blocks are a prefix of the entities of all of them, so earlier kinds come first |
| `EntityProvider.BlocksAddResources` | packages/cloudflare-entity-provider/src/CloudflareEntityProvider.ts:113-189 | every entity the blocks add is a resource of an enabled kind |
| `EntityProvider.DiscoveredAreResources` | packages/cloudflare-entity-provider/src/CloudflareEntityProvider.ts:111-189 | every entity a run discovers is a resource of an enabled kind |
| `EntityProvider.DiscoveryFailsOnlyOnLists` | packages/cloudflare-entity-provider/src/CloudflareEntityProvider.ts:113-204 | a run's discovery fails exactly when some enabled kind's list call fails |
| `EntityProvider.KindsNeverCollide` | packages/cloudflare-entity-provider/src/CloudflareEntityProvider.ts:113-189 | entities discovered for two different kinds never share a name |
| `EntityProvider.DiscoverKind` | packages/cloudflare-entity-provider/src/CloudflareEntityProvider.ts:113-189 | the call in one guarded block is the discovery of that block's kind |
| `EntityProvider.DiscoverAll` | packages/cloudflare-entity-provider/src/CloudflareEntityProvider.ts:111-189 | the loop over the kinds in order, guarded by the import flags, appending each kind's entities and stopping at the first failure, computes exactly the blocks' result |
| `EntityProvider.FullMutationOf` | packages/cloudflare-entity-provider/src/CloudflareEntityProvider.ts:192-198 | one entry per entity, in order, each carrying the provider name as its location key |
| `EntityProvider.CloudflareEntityProvider.constructor` | packages/cloudflare-entity-provider/src/CloudflareEntityProvider.ts:71-82 | a new provider has no connection, nothing scheduled and no mutation applied |
| `EntityProvider.CloudflareEntityProvider.Connect` | packages/cloudflare-entity-provider/src/CloudflareEntityProvider.ts:88-102 | stores the connection; schedules one task named after the provider exactly when a scheduler and a schedule exist; applies no mutation |
| `EntityProvider.CloudflareEntityProvider.ApplyFullMutation` | packages/cloudflare-entity-provider/src/CloudflareEntityProvider.ts:192-198 | appends exactly one full mutation of the entities, and rethrows the catalog's failure |
| `EntityProvider.CloudflareEntityProvider.Run` | packages/cloudflare-entity-provider/src/CloudflareEntityProvider.ts:104-205 | without a connection: `Not initialized` and no mutation; a discovery failure is rethrown with no mutation; otherwise exactly one full mutation of the discovered entities, whose failure is rethrown; connection and schedule unchanged |

## Left out

- Network I/O, `AbortController` and timers: each attempt of `request` is an outcome taken from the `outcome` input. The per-attempt timeout is recorded in what each attempt sends, but its expiry is just a thrown outcome.
- `response.json()` failing on a non-JSON body is a thrown outcome like any other.
- `Math.random` is the `jitter` input, in [0, 1).
- Floating-point rounding of the delay is left out: the delay is a real number.
- Dates are integers. The NaN comparator that an invalid date string produces in `sort` is not modelled.
- `toISOString`, `JSON.stringify`, SHA-256, `encodeURIComponent` and the percent-encoding of `URLSearchParams` are opaque function inputs. Only what the hashes and paths need from them is used.
- Naming.SanitizeName: `toLowerCase` is modelled on ASCII letters only. Non-ASCII case mapping, which can change a string's length, is left out.
- Logging through `winston` is dropped.
- The Backstage catalog is a ghost log of the mutations `applyMutation` receives. The scheduler is a log of the tasks handed to it; the scheduled task's own calls of `run` are not modelled.
- `fromConfig` reads a Backstage `Config` object and is not modelled.
- The `CloudflareClient` wiring of `index.ts` is not part of this model. So are the HTTP routers and their caches, and the frontend plugin.
- `types.ts` supplies record shapes only. Only the fields that the core reads are kept.
- The `as ResourceEntity` casts have no runtime effect.
- EntityProvider.Collect: its own contract bounds only the length. The order, the per-item skipping and the provenance are the lemmas `CollectAppend`, `FailureSkipsOnlyItem`, `CollectAllPresent` and `CollectProvenance`.
- Encoding.Base64: its own contract gives only the length. What the model needs of the encoding is `Encoding.Base64Concat` and the worked head.
- Sequential awaits are modelled; there is no concurrency.
- Each kind's list outcome reaches the provider as a `Result`. For the AI kinds the `Err` case cannot arise, because their clients never throw.
- The per-item calls of `discoverWorkers`, `discoverPages` and `discoverR2` (`latestDeployment`, `latestProduction`, `lifecycle` in `DiscoveryEnv`) also reach the provider as `Result`s. With the clients as written they never throw: `getLatestDeployment` and `getLatestProductionDeployment` go through `listDeployments`, which returns `[]` on any error (workers.ts:35-44, pages.ts:35-44); `getLifecycle` returns `null` on any error (r2.ts:34-44); and no mapper throws. So the `catch` around each item is unreachable with these clients. `EntityProvider.FailureSkipsOnlyItem` describes what that `catch` would do, over this wider set of inputs.
- `ClientConfig.timeout` and `maxRetries` are integers. A fractional `maxRetries` (2.5 allows three attempts under `attempt < maxRetries`, base.ts:42) cannot be expressed, and neither can a fractional timeout.

## Findings

| source | as written | input that shows it | evidently intended | confidence | as-written member | corrected member |
|---|---|---|---|---|---|---|
| packages/cloudflare-client/src/zero-trust.ts:49-56 | `hash` is `sha256:` and the first 16 base64 characters of the indented JSON of `{ logs, timestamp, params }`. Those characters encode only its first 12 bytes, `{\n  "logs": `, which every export starts with | any two exports, say one with no logs and one with a thousand, at different times: both get `sha256:ewogICJsb2dzIjog` | a digest of the whole snapshot, as the `sha256:` label says and as `exportLifecycle` computes (r2.ts:58) | not executed | `ZeroTrust.ExportAuditLogsAsWritten` | `ZeroTrust.ExportAuditLogs` |

# Audit pipeline (server side) — a Dafny model

This project models the server-side audit pipeline. One run takes a stored
audit snapshot (the HTML of a site's home, contact and privacy pages, its
policy text and the detected technology and forms), has a generative service
produce findings and narrative texts, attaches cached remediation plans, and
writes the findings and the outcome back to the record store.

Five modules follow the program's files. Two more, `Wrappers` and `Strings`,
are shared helpers that follow no file:

- `Wrappers`: `Option` and `Result`.
- `Strings`: the JavaScript string operations the pipeline calls (`includes`,
  ASCII `toLowerCase`, `trim`, `slice(0, n)`). It also holds `TrimStart`,
  `TrimEnd` and `IndexOf`. The program never calls these three; they describe
  what the fence regular expression at `llm.ts:138` matches.
- `WriteShield` (`writeShield.ts`): the allowlist/denylist filter that every
  write to the store passes through. It is a loop over the input's entries,
  proved equal to a map restriction.
- `Cache` (`cache.ts`): the normalising fingerprint of a finding, and the
  remediation cache.
  - The cache is a class over `map<string, Entry>`.
  - Entries expire after 24 hours, lazily on `get`.
  - `set` is an upsert, and there is an explicit sweep.
  - The clock is a parameter `now`.
- `Llm` (`llm.ts`): the analyzer.
  - The retry classifier, and the three-attempt retry loop with exponential
    backoff. The sleeps are recorded as a trace of delays.
  - Truncation of the prompt inputs.
  - Extraction of the JSON body from a ``` fence.
  - The fail-closed fallback result, and the defaults of the decoded reply.
- `Airtable` (`airtable.ts`): the record-store client.
  - A class `RecordStore` holds the audits (a map from record id to field map)
    and the append-only list of created findings.
  - Every remote call takes an argument that says whether the store accepts it.
  - `createFindingsBatch` writes in chunks of ten; a set of chunk numbers says
    which bulk creates the store rejects.
- `Processor` (`processor.ts`): the per-run state machine.
  - The record is marked RUNNING, read, validated, analysed, passed through
    the cache, projected to finding records, and written in batches.
  - The run ends COMPLETE, or with a caught error classified as PENDING (rate
    limited) or FAILED.

Each method with a loop or a changed state is proved equal to a function of
its inputs and old state. `Shield` is a loop that changes nothing; it is proved
equal to the map restriction `Permitted`; `ShieldChunk` is another such loop.
`RecordStore.GetAuditRecord` only reads the store. The state-changing methods
are `RemediationCache.Get`/`Set`/`ClearExpired`, the other `RecordStore`
methods (`UpdateAuditRecord`, `CreateFindingRecord`, `CreateFindingsBatch`,
`WriteChunks`, `WriteChunk`), `CacheFinding`, `ApplyCache`, `TryProcess` and
`ProcessAudit`. `GenerateWithRetry` is a loop that records its sleeps in a
returned trace. The properties the program
promises are then proved as lemmas about those functions.

The external world enters the model as parameters:

- the generative service is an oracle from (prompt, attempt number) to a reply
  or a thrown message;
- `JSON.parse` is a partial function returning an `Option`;
- the SHA-256 digest of the normalised tuple is an uninterpreted function;
- the clock is a number, and the ISO completion time is a text;
- the store's answers are parameters too:
  - booleans for a read (reachable or not) and an update (accepted or not);
  - for a single create, an `Option` holding the id the store assigns, or
    `None` for a rejection;
  - for a batch, the set of chunk numbers whose bulk create is rejected.

## Model

| member | source | states |
|---|---|---|
| WriteShield.Permitted | server/lib/writeShield.ts:30-40 | The shielded map's keys are exactly the input's keys that the allowlist names and the denylist does not; each kept key keeps its value. |
| WriteShield.Verdict | server/lib/writeShield.ts:31-38 | The denylist is tested first: a read-only key is reported as such even when an allowlist names it, a key outside the allowlist as not allowlisted, and any other key passes. `Shield` reports exactly the keys with a verdict, each under its verdict. |
| WriteShield.Shield | server/lib/writeShield.ts:26-46 | The loop over the entries builds exactly the permitted map. Every violation names an input key with the reason the denylist-first test gives, every blocked key is reported, and each key is reported once. |
| WriteShield.ShieldAuditPatchFields | server/lib/writeShield.ts:26-47 | Only keys in the audit allowlist and never a read-only key come out; a missing input gives the empty map and no violation; a key is dropped exactly when it is reported. |
| WriteShield.ShieldFindingCreateFields | server/lib/writeShield.ts:65-86 | The same for the findings allowlist. |
| WriteShield.ShieldIdempotent | server/lib/writeShield.ts:26-46 | Shielding an already shielded map returns it unchanged. |
| WriteShield.PermittedFixpoint | server/lib/writeShield.ts:30-40 | A map that only uses permitted names passes the shield whole. |
| WriteShield.AllowlistsAvoidDenylist | server/lib/writeShield.ts:3-24 | Neither allowlist names a read-only field; the denylist only decides the reason a blocked key is reported under. |
| Cache.RemediationCache.constructor | server/lib/cache.ts:8 | The cache starts empty. |
| Cache.GenerateCacheKey | server/lib/cache.ts:11-24 | The key is the digest of the normalised title, category, severity and the first 200 characters of the evidence. `KeyIgnoresCase`, `MissingEvidenceIsEmpty`, `KeyUsesEvidencePrefix` and `TruncateBeforeTrim` state what the normalisation does and does not tell apart. |
| Cache.RemediationCache.Get | server/lib/cache.ts:26-36 | The answer and the new entries are those of `Lookup`: a miss for an absent key, a miss that deletes the key for an entry older than the TTL, the value otherwise. |
| Cache.RemediationCache.Set | server/lib/cache.ts:38-43 | The entry for the key is overwritten with the value and the current time. |
| Cache.RemediationCache.ClearExpired | server/lib/cache.ts:45-53 | The loop over a snapshot of the entries leaves exactly `Sweep` of them. |
| Cache.LookupNeverSet | server/lib/cache.ts:27-28 | A key never set is a miss, and nothing changes. |
| Cache.StoreThenLookup | server/lib/cache.ts:26-43 | `set(k, v)` then `get(k)` at the same time returns `v` and changes nothing more; the entry carries the new timestamp; other keys keep their entries. |
| Cache.LookupAtTtlBoundary | server/lib/cache.ts:9-33 | An entry is still served at exactly 24 hours; one millisecond later the lookup misses and deletes only that entry. |
| Cache.SweepExact | server/lib/cache.ts:45-53 | The sweep keeps exactly the entries that are not expired, with their values and timestamps. |
| Cache.SweepUnobservable | server/lib/cache.ts:26-53 | After a sweep every lookup answers as it would have before. |
| Cache.KeyIgnoresCase | server/lib/cache.ts:17-22 | Lower-casing any of the four inputs does not change the key. |
| Cache.MissingEvidenceIsEmpty | server/lib/cache.ts:21 | A missing evidence snippet gives the same key as an empty one. |
| Cache.KeyUsesEvidencePrefix | server/lib/cache.ts:21 | Evidence snippets that agree on their first 200 characters give the same key. |
| Cache.TruncateBeforeTrim | server/lib/cache.ts:21 | The evidence is cut before it is trimmed: 199 spaces followed by "ab" normalise to "a", where trimming first would have kept "ab". |
| Cache.LowerIdempotent | server/lib/cache.ts:18-21 | Lower-casing twice is lower-casing once. |
| Llm.RetryableStatusCodes | server/lib/llm.ts:19-24 | A message with "429", "503" or the upper-case "RATELIMIT_EXCEEDED" anywhere is retryable. |
| Llm.IsRetryableError | server/lib/llm.ts:19-29 | The six retry tests: "429", "503" or RATELIMIT_EXCEEDED anywhere, or "quota", "rate limit" or "overloaded" in any case. `RetryableStatusCodes`, `RetryableAnyCase`, `NotRetryableWithout` and `NotRetryableExample` state which messages pass and which do not. |
| Llm.RetryableAnyCase | server/lib/llm.ts:25-27 | "quota" and "overloaded" are recognised in any letter case. |
| Llm.NotRetryableWithout | server/lib/llm.ts:19-29 | A message with none of the characters its six tests need is not retryable. |
| Llm.NotRetryableExample | server/lib/llm.ts:19-29 | "invalid API key" is not retryable. |
| Llm.FirstStop | server/lib/llm.ts:35-54 | The first attempt that replies or fails for good, or 3 when every attempt fails retryably; every earlier attempt failed retryably. |
| Llm.Backoff | server/lib/llm.ts:12-52 | Every delay lies between 2000 and 128000 ms. |
| Llm.Backoffs | server/lib/llm.ts:33-52 | The delays slept after the first `n` failures, in order. |
| Llm.BackoffStep | server/lib/llm.ts:52 | The next delay is the previous one doubled, capped at 128000. |
| Llm.GenerateWithRetry | server/lib/llm.ts:31-57 | The loop's result, sleep trace and number of calls are those of `Generation`. |
| Llm.GenerationBounds | server/lib/llm.ts:11-56 | Between one and three calls; a sleep after every retryable failure, the last attempt's included; the first delay is 2000, each next one the double of the previous one capped at 128000, none above the cap. |
| Llm.FirstReplyReturned | server/lib/llm.ts:37-42 | A reply on the first attempt is returned at once, a missing text as "", after one call and no sleep. |
| Llm.NonRetryableShortCircuit | server/lib/llm.ts:43-48 | A non-retryable error on the first attempt is rethrown after that one call, with no sleep. |
| Llm.AllAttemptsRetryable | server/lib/llm.ts:44-56 | Three retryable failures: three calls, sleeps of 2000, 4000 and 8000 ms, then the last error is thrown. |
| Llm.BuildPrompt | server/lib/llm.ts:86-89 | The home text is exactly its first min(length, 15000) characters; contact, privacy and policy are exactly their first min(length, 5000) characters, "" when missing; the technology and forms texts are passed as they are, "" when missing. |
| Llm.AnalyzeHtmlAndGenerateFindings | server/lib/llm.ts:73-168 | The analyzer's result is `Analysis` of the truncated inputs. |
| Llm.NoFenceWholeText | server/lib/llm.ts:138-139 | A reply without a fence is parsed whole. |
| Llm.ExtractJsonBody | server/lib/llm.ts:138-139 | The regular expression's capture: the text between the first fence (with its optional json tag and white space skipped) and the next fence, or the whole reply when either fence is missing. The five fence lemmas state each case. |
| Llm.JsonCandidate | server/lib/llm.ts:138-140 | The text handed to the parser is the extracted body, trimmed. It is only observed through `DecodeResponse`. |
| Llm.UnclosedFenceWholeText | server/lib/llm.ts:138-139 | With an opening fence after text without backticks, and no closing fence, the whole reply is parsed. |
| Llm.ExtractAfterFirstFence | server/lib/llm.ts:138-139 | After a first fence that follows text without backticks, the body runs from the skipped tag and white space to the next fence, or the whole reply is parsed when there is none. |
| Llm.FencedBodyExtracted | server/lib/llm.ts:138-139 | For any text without backticks, an optional "json" tag, a body and a closing fence, the extracted body is that body without its leading white space. |
| Llm.SkipTagBeforeFence | server/lib/llm.ts:138 | The optional "json" tag and the white space after it are skipped, and nothing else is. |
| Llm.TrimStartKeepsLaterText | server/lib/llm.ts:138 | Skipping white space stops before the first character that is not white space. |
| Llm.ParseFailureFallsBack | server/lib/llm.ts:141-156 | When parsing fails, the result is exactly the fallback: one INFO finding, status OPEN, score 50, and the fixed narratives. |
| Llm.DecodeResponse | server/lib/llm.ts:140-163 | A parse failure gives the fallback, `null` gives the TypeError, and any other value its four properties with their defaults. `ParseFailureFallsBack`, `PropertiesDefault`, `MissingPropertiesDefault` and `DecodeFailsOnlyOnNull` state the three cases. |
| Llm.MissingPropertiesDefault | server/lib/llm.ts:158-163 | A parsed value without a findings array or narratives decodes to no findings and empty texts. |
| Llm.PropertiesDefault | server/lib/llm.ts:158-163 | Each property of a parsed value defaults on its own: a present findings array or narrative is kept, a missing one becomes [] or "", and decoding succeeds. |
| Llm.DecodeFailsOnlyOnNull | server/lib/llm.ts:136-163 | Decoding fails exactly when the parsed value is `null`. |
| Llm.AnalysisPropagatesErrors | server/lib/llm.ts:131-167 | An error of the retry loop reaches the caller unchanged; otherwise the result is the decoded reply. |
| Airtable.RecordStore.constructor | server/lib/airtable.ts:14-28 | A store with the given configuration and audits, and no findings. |
| Airtable.RecordStore.GetAuditRecord | server/lib/airtable.ts:69-96 | The answer is `Fetch`: the record, projected, or `None` on any failure. |
| Airtable.RecordStore.UpdateAuditRecord | server/lib/airtable.ts:98-122 | The report and the new audits are `Update`: the shielded fields are merged into the record, or nothing is written and false is reported. The findings are unchanged. |
| Airtable.RecordStore.CreateFindingRecord | server/lib/airtable.ts:124-138 | The id and the new findings are `CreateOne`; the audits are unchanged. |
| Airtable.RecordStore.CreateFindingsBatch | server/lib/airtable.ts:140-172 | Unconfigured: the configuration error, before any write. Otherwise the counts, the bulk creates made and the records appended are those of `Batch`. |
| Airtable.RecordStore.WriteChunks | server/lib/airtable.ts:148-169 | The chunk loop's counters, bulk creates and appended records are those of `Batch`. |
| Airtable.RecordStore.WriteChunk | server/lib/airtable.ts:150-168 | One chunk: no call and all failed when nothing survives the shield; otherwise one bulk create that is stored (the rest failed) or rejected (all failed). |
| Airtable.ShieldChunk | server/lib/airtable.ts:152-156 | The shielded records of a chunk that keep a field, in input order. |
| Airtable.ValidRecords | server/lib/airtable.ts:152-156 | No more records are sent than the chunk holds. |
| Airtable.ChunkLength | server/lib/airtable.ts:148-150 | A chunk is exactly ten records while ten or more remain, and otherwise the whole shorter rest; it is never empty while records remain. |
| Airtable.NextChunk | server/lib/airtable.ts:149-150 | The chunks are consecutive slices: the batch from offset `i` is this chunk followed by the batch from the next offset. |
| Airtable.WriterAdvances | server/lib/airtable.ts:149-169 | The chunk loop's invariant holds after one more chunk. |
| Airtable.BatchCountsAddUp | server/lib/airtable.ts:140-171 | created + failed is the number of input records. |
| Airtable.BatchRequestsBounded | server/lib/airtable.ts:148-162 | Every bulk create sends between one and ten records, all shielded. |
| Airtable.BatchStoresShielded | server/lib/airtable.ts:152-164 | The store keeps exactly as many records as are counted created, and only records that went through the shield and kept a field. |
| Airtable.BatchStoresInputs | server/lib/airtable.ts:152-164 | When the inputs are already shielded, the store keeps only input records. |
| Airtable.BatchAllAccepted | server/lib/airtable.ts:149-169 | Shielded inputs and no rejected chunk: every record is stored, in order, and none fails. |
| Airtable.ValidRecordsShielded | server/lib/airtable.ts:152-156 | The records that a chunk sends are shielded and not empty. |
| Airtable.ShieldedRecordsAllValid | server/lib/airtable.ts:152-156 | Records that are already shielded are all sent, unchanged. |
| Airtable.ValidRecordsIdempotent | server/lib/airtable.ts:152-156 | Shielding a chunk twice sends the same records. |
| Airtable.FifteenWithSecondChunkRejected | server/lib/airtable.ts:149-168 | Fifteen records with the second chunk rejected: ten created, five failed, two bulk creates of ten and five, and the first ten stored. |
| Airtable.EmptyChunkFailsWhole | server/lib/airtable.ts:157-161 | A chunk that shields to nothing makes no call and adds its size to `failed`. |
| Airtable.FetchNullOnFailure | server/lib/airtable.ts:69-96 | The read returns a record exactly when the client is configured, the store is reached and the record exists, and then with the requested id. |
| Airtable.UpdateWritesShielded | server/lib/airtable.ts:109-121 | A reported failure writes nothing. A success changes only that existing record, adds only allowlisted fields, and leaves the others alone. A patch that shields to nothing reports false. |
| Airtable.CreateOneContract | server/lib/airtable.ts:124-138 | An id comes back exactly when the client is configured, something survives the shield and the store accepts; then the shielded record is appended, and otherwise nothing is. |
| Processor.Classify | server/lib/processor.ts:104-110 | A caught error is never COMPLETE, and it is PENDING exactly when the rate-limit test holds. |
| Processor.RateLimitIsRetryable | server/lib/processor.ts:105-108 | Every message the processor treats as rate limited is one the retry loop retries. |
| Processor.IsRateLimitError | server/lib/processor.ts:105-108 | "429" or lower-case "quota" anywhere, or "rate limit" in any case. `RateLimitIsRetryable`, `RateLimitAnyCase`, `NotRateLimited`, `UnavailableIsFailed`, `CapitalQuotaIsFailed` and `OverloadedIsFailed` relate it to the retry classifier. |
| Processor.RateLimitAnyCase | server/lib/processor.ts:108 | "rate limit" in any letter case gives PENDING. |
| Processor.NotRateLimited | server/lib/processor.ts:105-110 | A message with no 4, no lower-case q and no m in either case is FAILED. |
| Processor.UnavailableIsFailed | server/lib/processor.ts:105-110 | A "503" message that fails the rate-limit test is retried by the generator, but the run is FAILED, not PENDING. |
| Processor.CapitalQuotaIsFailed | server/lib/processor.ts:105-110 | The processor's quota test is case-sensitive: a "Quota" message is retried, yet the run is FAILED. |
| Processor.OverloadedIsFailed | server/lib/processor.ts:105-110 | An overloaded message is retried, yet the run is FAILED. |
| Processor.PatchesPassShield | server/lib/processor.ts:22-115 | The RUNNING, COMPLETE and failure patches pass the audit shield whole. |
| Processor.Validate | server/lib/processor.ts:26-34 | The run only goes on with a record that has a non-empty `html_home`. |
| Processor.NotFoundIsFailed | server/lib/processor.ts:105-110 | The not-found error (line 28) of an id without 4, q or m is FAILED. |
| Processor.NotFoundIdWith429IsPending | server/lib/processor.ts:28-110 | The not-found message repeats the id, so an id containing "429" makes a missing record PENDING. |
| Processor.MissingHomeIsFailed | server/lib/processor.ts:105-110 | The missing-`html_home` error (line 33) is FAILED. |
| Processor.CachePass | server/lib/processor.ts:47-63 | The cache pass returns one finding per input finding. |
| Processor.CacheFinding | server/lib/processor.ts:48-62 | One finding through the cache: a non-empty cached text replaces its plan; otherwise its own plan is stored under its key. |
| Processor.ApplyCache | server/lib/processor.ts:47-63 | The `map` over the findings, with the cache, is `CachePass`. |
| Processor.CachePassExtends | server/lib/processor.ts:47-63 | One more finding extends the pass by one step. |
| Processor.CacheOneRemembers | server/lib/processor.ts:55-60 | One step changes only the plan, keeps what earlier findings left cached, and leaves its own non-empty plan cached, live. |
| Processor.CachePassRemembers | server/lib/processor.ts:47-63 | The pass changes nothing but plans; afterwards every non-empty plan it handed out is cached, live, under the key of its finding. |
| Processor.CachePassPrefix | server/lib/processor.ts:47-63 | The pass over a prefix is the prefix of the pass. |
| Processor.CacheConsistent | server/lib/processor.ts:47-63 | Findings of one run with equal fingerprints: a later one takes the plan an earlier one came out with, once that plan is non-empty. |
| Processor.FreshCacheKeepsPlans | server/lib/processor.ts:55-60 | With an empty cache and distinct fingerprints, every finding keeps its plan, and the cache then holds exactly their keys. |
| Processor.FindingRecords | server/lib/processor.ts:66-75 | One record per finding. |
| Processor.ToFindingRecord | server/lib/processor.ts:66-75 | The create fields of one finding: the audit link, the finding's texts, OPEN for an empty status, and `ai_fix_code` and `edge_score_component` left `undefined` when absent. `ToFindingRecordShape` states that they pass the findings shield whole. |
| Processor.ToFindingRecordShape | server/lib/processor.ts:66-75 | A finding's record passes the findings shield whole and links to the audit alone. It keeps the status, with "" becoming OPEN, and it keeps the plan. |
| Processor.FindingRecordsProjected | server/lib/processor.ts:66-75 | Every record sent to the batch writer is shielded and linked to the audit. |
| Processor.StoredRecordsLinked | server/lib/processor.ts:66-78 | The batch writer stores one record per finding counted created, each linked to the audit. |
| Processor.TryProcess | server/lib/processor.ts:24-99 | The `try` block's result and the store and cache it leaves are `TrySpec`. |
| Processor.ProcessAudit | server/lib/processor.ts:18-124 | The result and the store and cache a run leaves are `Run`. |
| Processor.TryAudits | server/lib/processor.ts:24-99 | The `try` block keeps the record set and touches no other record; an error leaves the audits as they were. |
| Processor.TryFindings | server/lib/processor.ts:24-99 | The `try` block only appends findings. An error leaves the findings and the cache as they were. On success the count is the number of records appended, each linked to the audit. |
| Processor.FinishFindings | server/lib/processor.ts:47-99 | After the analyzer, the block succeeds, appends only, and returns the number of records appended, each linked to the audit. |
| Processor.RunReports | server/lib/processor.ts:94-122 | The result echoes the id. ok holds exactly when the status is COMPLETE, when a count is reported, and when no error is. A failed run's status is the classification of its error. |
| Processor.RunAudits | server/lib/processor.ts:18-124 | A run keeps the record set and changes no other record. |
| Processor.RunFindings | server/lib/processor.ts:78-122 | Findings are only appended and never rolled back. A failed run writes none and leaves the cache as it was. A successful run reports the number of records it appended, each linked to the audit, even when some failed. |
| Processor.RunRecordsStatus | server/lib/processor.ts:83-115 | When the final patch is accepted, the record's `bot_b_status` is the run's status, and its `last_error` is the error, or "" on success. |
| Processor.RunRecordsCompletion | server/lib/processor.ts:83-90 | A successful run whose final patch is accepted leaves the record with the analyzer's exec_summary, risk_analysis and remediation_overview, `scan_completed_at` set to the completion time, and the whole COMPLETE patch merged over the RUNNING record. |
| Processor.RunOkIffAnalyzed | server/lib/processor.ts:24-99 | A run succeeds exactly when the read, the validation and the analysis succeed; the RUNNING patch does not change what is analysed. |
| Processor.AnalyzedIgnoresRunningPatch | server/lib/processor.ts:22-44 | Marking the record RUNNING, accepted or not, leaves the read, the validation and the analyzer's result unchanged. |
| Processor.CompletePatchFields | server/lib/processor.ts:83-90 | The COMPLETE patch sets the three narratives and `scan_completed_at` to the analyzer's texts and the completion time. |
| Processor.CompletePatchRecorded | server/lib/processor.ts:83-90 | The accepted COMPLETE patch is merged into the record. |
| Processor.FailurePatchRecorded | server/lib/processor.ts:112-115 | The accepted failure patch is merged into the record. |
| Processor.RunLeftRunning | server/lib/processor.ts:22-115 | The RUNNING patch was accepted but the final one is refused: the record is left RUNNING and nothing else in the audits changes. |
| Processor.RunNotFound | server/lib/processor.ts:26-122 | A record the read cannot return ends the run with the not-found error, classified. No finding is written and the cache is untouched. The audits are unchanged when the client is unconfigured or the record is absent. |
| Processor.RunMissingHome | server/lib/processor.ts:32-122 | A record without a usable `html_home` ends the run FAILED with the missing-field error, with no finding written and the cache untouched. The outcome is the same whatever the service and the parser would do, so the analyzer is not consulted. |

## Left out

- Lower-casing is ASCII only, and strings are sequences of characters, not
  UTF-16 code units. The model has no Unicode case mapping.
- SHA-256 and `JSON.stringify` in `generateCacheKey` are one uninterpreted
  `hash` parameter; no cryptography is modelled. The cache lemmas in
  `Processor` take any key function, and the program's key is
  `Fingerprint(hash)`.
- `JSON.parse` is an abstract partial function. A parsed value is seen only
  through the four properties the analyzer reads. A non-string narrative that
  is truthy, and a finding whose fields are not texts, are untyped hazards
  that the model cannot express.
- The Gemini client and the prompt's wording are not modelled. The prompt is
  the six bounded inputs it is built from.
- The clock is a parameter.
  - The cache pass of a run uses one `now` for all its findings, where the
    program reads `Date.now()` at each lookup and store.
  - `setTimeout` sleeps are recorded as a trace of delays.
- Logging (`console.*`) is left out. The shields' violations are returned as a
  value instead of being logged.
- Concurrency between overlapping runs is not modelled, and neither are the
  `await` interleavings.
- Numbers are unbounded integers. `edge_score_component` is an `int`, and
  delays and counts never approach floating-point limits.
- Llm.GenerateWithRetry: the "Max retries exceeded" fallback is unreachable,
  because `lastError` is set on every failed attempt, so the model never
  produces it.
- Processor.TryProcess: the batch writer's only error, the configuration check,
  cannot happen after a successful read. The model proves that branch dead
  rather than modelling it.
- A finding whose `remediation_plan` is `undefined` is not modelled; a plan is
  always a text.
- The catch in `updateAuditRecord` and `createFindingRecord` stands for every
  store error. The model folds them all into one rejected call.
- The Airtable SDK's initialisation (server/lib/airtable.ts:1-28) is the fixed
  `configured` flag of a `RecordStore`.
- `server/routes.ts` and everything under `src/` (the web front end) are not
  part of this model.
- The classifier lemmas are stated for whole families of messages (by the
  characters they lack). They are not stated for literal example messages,
  except "invalid API key" and the processor's two fixed error texts.
- The program sleeps after the third failed attempt too, before throwing, so
  three retryable failures cost 2000, 4000 and 8000 ms although only two
  retries follow. `Llm.AllAttemptsRetryable` states the three sleeps.
- A reply that parses to JSON `null` makes the analyzer throw a TypeError when
  it reads `findings`. The run then fails with that message
  (`Llm.DecodeFailsOnlyOnNull`), not with the fallback result.
- Processor.CacheConsistent: holds because the model's cache pass reads one
  `now` for all findings of a run. The program reads the clock at each lookup,
  so an entry stored before the run can expire between two findings' lookups;
  the later finding then misses and keeps its own plan. The lemma does not
  cover that case.
- Processor.CachePassRemembers: "live" is with respect to the pass's single
  `now`, for the same reason.

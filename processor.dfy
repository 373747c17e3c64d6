/** The audit processor: one run of the pipeline for one audit record. It marks
    the record RUNNING, reads it, has the findings generated, passes them through
    the remediation cache, writes them in batches, and records the outcome on the
    audit record; any error inside the run is caught and classified as PENDING
    (rate limited, worth retrying later) or FAILED. */
module Processor {
  import opened Wrappers
  import opened Strings
  import opened WriteShield
  import opened Cache
  import opened Llm
  import opened Airtable

  /** The status a run ends in, as written to `bot_b_status`. */
  datatype Status = Complete | Failed | Pending

  function StatusText(s: Status): string
  {
    match s
    case Complete => "COMPLETE"
    case Failed => "FAILED"
    case Pending => "PENDING"
  }

  /** What `processAudit` resolves to. */
  datatype ProcessResult = ProcessResult(ok: bool, auditRecordId: string, findingsCreated: Option<nat>,
                                         status: Status, error: Option<string>)

  /** Everything a run depends on besides the store and the cache: the generative
      service and `JSON.parse`, the digest behind the cache key, the clock (`now`
      for the cache, `completedAt` for the ISO completion time), and the store's
      answers: whether it accepts the RUNNING patch, whether the read reaches it,
      which bulk creates it rejects (by chunk number) and whether it accepts the
      final patch. */
  datatype Environment = Environment(
    service: Service, parse: JsonParser, hash: NormalizedKey -> string, now: int, completedAt: string,
    markRunningOk: bool, fetchOk: bool, rejectedChunks: set<nat>, finalWriteOk: bool)

  // ---------------------------------------------------------------------------
  // Classification of errors

  /** The processor's own rate-limit test: "429" or "quota" as written (case
      matters), or "rate limit" in any case. */
  predicate IsRateLimitError(message: string)
  {
    Contains(message, "429") || Contains(message, "quota") || Contains(Lower(message), "rate limit")
  }

  /** A rate-limit error is PENDING, any other error FAILED. */
  function Classify(message: string): (s: Status)
    ensures s != Complete
    ensures s == Pending <==> IsRateLimitError(message)
  {
    if IsRateLimitError(message) then Pending else Failed
  }

  /** Every message the processor treats as rate limited is one the retry loop
      would have retried. */
  lemma RateLimitIsRetryable(message: string)
    requires IsRateLimitError(message)
    ensures IsRetryableError(message)
  {
    if Contains(message, "quota") {
      ContainsLower(message, "quota");
      assert Lower("quota") == "quota";
    }
  }

  /** "rate limit" is recognised in any letter case. */
  lemma RateLimitAnyCase(pre: string, word: string, post: string)
    requires Lower(word) == "rate limit"
    ensures Classify(pre + word + post) == Pending
  {
    LowerConcat(pre + word, post);
    LowerConcat(pre, word);
    OccursBetween(Lower(pre), Lower(word), Lower(post));
  }

  /** A message without the digit 4, without a lower-case q, and whose lower-case
      form has no m, is not a rate-limit error. */
  lemma NotRateLimited(message: string)
    requires '4' !in message && 'q' !in message && 'm' !in Lower(message)
    ensures Classify(message) == Failed
  {
    MissingCharNotContained(message, "429", 0);
    MissingCharNotContained(message, "quota", 0);
    MissingCharNotContained(Lower(message), "rate limit", 7);
  }

  /** An unavailable service (a message with "503") is retried by the generation
      loop, but unless the message also passes the rate-limit test the audit is
      then marked FAILED, not PENDING. */
  lemma UnavailableIsFailed(message: string)
    requires Contains(message, "503")
    requires '4' !in message && 'q' !in message && 'm' !in Lower(message)
    ensures IsRetryableError(message)
    ensures Classify(message) == Failed
  {
    NotRateLimited(message);
  }

  /** The quota test is case-sensitive here, unlike the generation loop's: a
      message with "Quota" is retried and, failing the other tests, then marked
      FAILED. */
  lemma CapitalQuotaIsFailed(message: string)
    requires Contains(message, "Quota")
    requires '4' !in message && 'q' !in message && 'm' !in Lower(message)
    ensures IsRetryableError(message)
    ensures Classify(message) == Failed
  {
    ContainsLower(message, "Quota");
    assert Lower("Quota") == "quota";
    NotRateLimited(message);
  }

  /** An overloaded service is retried but, failing the other tests, marked FAILED. */
  lemma OverloadedIsFailed(message: string)
    requires Contains(Lower(message), "overloaded")
    requires '4' !in message && 'q' !in message && 'm' !in Lower(message)
    ensures IsRetryableError(message)
    ensures Classify(message) == Failed
  {
    NotRateLimited(message);
  }

  // ---------------------------------------------------------------------------
  // The patches written to the audit record

  const RunningPatch: Fields := map["bot_b_status" := Text("RUNNING")]

  function CompletePatch(result: AnalysisResult, completedAt: string): Fields
  {
    map["bot_b_status" := Text("COMPLETE"), "exec_summary" := Text(result.execSummary),
        "risk_analysis" := Text(result.riskAnalysis), "remediation_overview" := Text(result.remediationOverview),
        "scan_completed_at" := Text(completedAt), "last_error" := Text("")]
  }

  function FailurePatch(status: Status, message: string): Fields
  {
    map["bot_b_status" := Text(StatusText(status)), "last_error" := Text(message)]
  }

  /** The three patches pass the audit shield whole. */
  lemma PatchesPassShield(result: AnalysisResult, completedAt: string, status: Status, message: string)
    ensures Permitted(RunningPatch, AuditsWriteAllowlist) == RunningPatch
    ensures Permitted(CompletePatch(result, completedAt), AuditsWriteAllowlist) == CompletePatch(result, completedAt)
    ensures Permitted(FailurePatch(status, message), AuditsWriteAllowlist) == FailurePatch(status, message)
  {
    PermittedFixpoint(RunningPatch, AuditsWriteAllowlist);
    PermittedFixpoint(CompletePatch(result, completedAt), AuditsWriteAllowlist);
    PermittedFixpoint(FailurePatch(status, message), AuditsWriteAllowlist);
  }

  // ---------------------------------------------------------------------------
  // Validation of the audit record

  function NotFoundError(auditRecordId: string): string
  {
    NotFoundPrefix + auditRecordId
  }

  const MissingHomeError: string := "Missing required field: html_home"

  /** The record the run goes on with, or the error it throws: a missing record,
      or a record whose `html_home` is missing or empty. */
  function Validate(fetched: Option<AuditRecord>, auditRecordId: string): (r: Result<AuditRecord>)
    ensures r.Success? ==> r.value.htmlHome.Some? && r.value.htmlHome.value != ""
  {
    if fetched.None? then Failure(NotFoundError(auditRecordId))
    else if fetched.value.htmlHome.None? || fetched.value.htmlHome.value == "" then Failure(MissingHomeError)
    else Success(fetched.value)
  }

  /** The analyzer's inputs taken from the record. */
  function PromptOf(audit: AuditRecord): Prompt
    requires audit.htmlHome.Some?
  {
    BuildPrompt(audit.htmlHome.value, audit.htmlContact, audit.htmlPrivacy, audit.policyText,
                audit.techStackJson, audit.formsDetectedJson)
  }

  const NotFoundPrefix: string := "Audit record not found: "

  // The facts below about the two fixed messages are split a few characters per
  // lemma; each is checked by unfolding the literal, which stays cheap only
  // in small steps.

  /** The fixed text has no digit 4 and no lower-case q... */
  lemma NotFoundPrefixNoDigitNoQ()
    ensures '4' !in NotFoundPrefix && 'q' !in NotFoundPrefix
  {
  }

  /** ...and no m in either case. */
  lemma NotFoundPrefixNoM()
    ensures 'm' !in NotFoundPrefix && 'M' !in NotFoundPrefix
  {
  }

  /** The not-found message of an id without the digit 4, a lower-case q or an m
      in either case classifies as FAILED. */
  lemma NotFoundIsFailed(auditRecordId: string)
    requires '4' !in auditRecordId && 'q' !in auditRecordId && 'm' !in auditRecordId && 'M' !in auditRecordId
    ensures Classify(NotFoundError(auditRecordId)) == Failed
  {
    var message := NotFoundError(auditRecordId);
    NotFoundPrefixNoDigitNoQ();
    NotFoundPrefixNoM();
    assert message == NotFoundPrefix + auditRecordId;
    LowerAvoids(message, 'm');
    NotRateLimited(message);
  }

  /** The not-found message repeats the id, so an id that happens to contain
      "429" makes a missing record PENDING. */
  lemma NotFoundIdWith429IsPending(pre: string, post: string)
    ensures Classify(NotFoundError(pre + "429" + post)) == Pending
  {
    assert NotFoundError(pre + "429" + post) == (NotFoundPrefix + pre) + "429" + post;
    OccursBetween(NotFoundPrefix + pre, "429", post);
  }

  /** The message has no "429". */
  lemma MissingHomeNoDigit()
    ensures !Contains(MissingHomeError, "429")
  {
    assert '4' !in MissingHomeError;
    MissingCharNotContained(MissingHomeError, "429", 0);
  }

  /** The message has no letter a in either case. */
  lemma MissingHomeNoA()
    ensures 'a' !in MissingHomeError && 'A' !in MissingHomeError
  {
  }

  /** Without an a, the message has no "quota"... */
  lemma MissingHomeNoQuota()
    ensures !Contains(MissingHomeError, "quota")
  {
    MissingHomeNoA();
    MissingCharNotContained(MissingHomeError, "quota", 4);
  }

  /** ...and no "rate limit" in any case. */
  lemma MissingHomeNoRateLimit()
    ensures !Contains(Lower(MissingHomeError), "rate limit")
  {
    MissingHomeNoA();
    LowerAvoids(MissingHomeError, 'a');
    MissingCharNotContained(Lower(MissingHomeError), "rate limit", 1);
  }

  /** A missing `html_home` classifies as FAILED. */
  lemma MissingHomeIsFailed()
    ensures Classify(MissingHomeError) == Failed
  {
    MissingHomeNoDigit();
    MissingHomeNoQuota();
    MissingHomeNoRateLimit();
  }

  // ---------------------------------------------------------------------------
  // The remediation-cache pass

  /** The cache key of a generated finding. */
  function Fingerprint(hash: NormalizedKey -> string): GeneratedFinding -> string
  {
    (f: GeneratedFinding) => GenerateCacheKey(hash, f.findingTitle, f.category, f.severity, f.evidenceSnippet)
  }

  /** One finding through the cache: a cached non-empty text replaces its plan;
      otherwise (a miss, an expired entry, or a cached empty text) its own plan is
      stored under its key. */
  function CacheOne(entries: map<string, Entry>, f: GeneratedFinding, key: GeneratedFinding -> string, now: int)
    : (GeneratedFinding, map<string, Entry>)
  {
    var key := key(f);
    var lookup := Lookup(entries, key, now);
    if lookup.0.Some? && lookup.0.value != "" then (f.(remediationPlan := lookup.0.value), lookup.1)
    else (f, Store(lookup.1, key, f.remediationPlan, now))
  }

  /** The findings through the cache in order, with the cache's entries afterwards. */
  function CachePass(entries: map<string, Entry>, findings: seq<GeneratedFinding>, key: GeneratedFinding -> string, now: int)
    : (r: (seq<GeneratedFinding>, map<string, Entry>))
    ensures |r.0| == |findings|
    decreases |findings|
  {
    if findings == [] then ([], entries)
    else
      var pass := CachePass(entries, findings[..|findings| - 1], key, now);
      var step := CacheOne(pass.1, findings[|findings| - 1], key, now);
      (pass.0 + [step.0], step.1)
  }

  /** The body of the `findings.map` callback. */
  method CacheFinding(cache: RemediationCache, finding: GeneratedFinding, key: GeneratedFinding -> string, now: int)
    returns (g: GeneratedFinding)
    modifies cache
    ensures (g, cache.entries) == CacheOne(old(cache.entries), finding, key, now)
  {
    var cached := cache.Get(key(finding), now);
    if cached.Some? && cached.value != "" {
      g := finding.(remediationPlan := cached.value);
    } else {
      cache.Set(key(finding), finding.remediationPlan, now);
      g := finding;
    }
  }

  /** One more finding extends the pass by one step. */
  lemma CachePassExtends(entries: map<string, Entry>, findings: seq<GeneratedFinding>, i: nat,
                         key: GeneratedFinding -> string, now: int)
    requires i < |findings|
    ensures var (done, mid) := CachePass(entries, findings[..i], key, now);
            var (g, after) := CacheOne(mid, findings[i], key, now);
            CachePass(entries, findings[..i + 1], key, now) == (done + [g], after)
  {
    assert findings[..i + 1][..i] == findings[..i];
  }

  /** The `findings.map` with the cache lookups of `processAudit`. */
  method ApplyCache(cache: RemediationCache, findings: seq<GeneratedFinding>, key: GeneratedFinding -> string, now: int)
    returns (out: seq<GeneratedFinding>)
    modifies cache
    ensures (out, cache.entries) == CachePass(old(cache.entries), findings, key, now)
  {
    out := [];
    var i := 0;
    while i < |findings|
      invariant 0 <= i <= |findings|
      invariant (out, cache.entries) == CachePass(old(cache.entries), findings[..i], key, now)
    {
      var finding := CacheFinding(cache, findings[i], key, now);
      CachePassExtends(old(cache.entries), findings, i, key, now);
      out := out + [finding];
      i := i + 1;
    }
    assert findings[..i] == findings;
  }

  /** `out` is `findings` with only the remediation plans changed. */
  predicate SamePlanless(out: seq<GeneratedFinding>, findings: seq<GeneratedFinding>)
  {
    |out| == |findings| &&
    forall i :: 0 <= i < |out| ==> out[i] == findings[i].(remediationPlan := out[i].remediationPlan)
  }

  /** Every finding that left the pass with a non-empty plan has that plan cached,
      live, under the key of the finding it came from. */
  predicate Remembers(entries: map<string, Entry>, findings: seq<GeneratedFinding>, out: seq<GeneratedFinding>,
                      key: GeneratedFinding -> string, now: int)
    requires |out| == |findings|
  {
    forall i :: 0 <= i < |out| && out[i].remediationPlan != "" ==>
      key(findings[i]) in entries && entries[key(findings[i])].value == out[i].remediationPlan
      && !Expired(entries[key(findings[i])], now)
  }

  /** One step keeps what earlier findings left in the cache, and leaves its own
      non-empty plan there. */
  lemma CacheOneRemembers(entries: map<string, Entry>, findings: seq<GeneratedFinding>, done: seq<GeneratedFinding>,
                          f: GeneratedFinding, key: GeneratedFinding -> string, now: int)
    requires |done| == |findings| && Remembers(entries, findings, done, key, now)
    ensures var step := CacheOne(entries, f, key, now);
            step.0 == f.(remediationPlan := step.0.remediationPlan)
            && Remembers(step.1, findings + [f], done + [step.0], key, now)
  {
    var step := CacheOne(entries, f, key, now);
    var (ins, outs) := (findings + [f], done + [step.0]);
    forall i | 0 <= i < |outs| && outs[i].remediationPlan != ""
      ensures key(ins[i]) in step.1 && step.1[key(ins[i])].value == outs[i].remediationPlan
      ensures !Expired(step.1[key(ins[i])], now)
    {
      if i < |done| {
        assert ins[i] == findings[i] && outs[i] == done[i];
      }
    }
  }

  /** The pass changes nothing but remediation plans, and afterwards the cache
      holds every non-empty plan it handed out. */
  lemma {:induction false} CachePassRemembers(entries: map<string, Entry>, findings: seq<GeneratedFinding>,
                                              key: GeneratedFinding -> string, now: int)
    ensures SamePlanless(CachePass(entries, findings, key, now).0, findings)
    ensures Remembers(CachePass(entries, findings, key, now).1, findings, CachePass(entries, findings, key, now).0, key, now)
    decreases |findings|
  {
    if findings != [] {
      var init := findings[..|findings| - 1];
      CachePassRemembers(entries, init, key, now);
      var pass := CachePass(entries, init, key, now);
      CacheOneRemembers(pass.1, init, pass.0, findings[|findings| - 1], key, now);
      assert init + [findings[|findings| - 1]] == findings;
    }
  }

  /** The pass over a prefix is the prefix of the pass. */
  lemma {:induction false} CachePassPrefix(entries: map<string, Entry>, findings: seq<GeneratedFinding>, n: nat,
                                           key: GeneratedFinding -> string, now: int)
    requires n <= |findings|
    ensures CachePass(entries, findings, key, now).0[..n] == CachePass(entries, findings[..n], key, now).0
    decreases |findings|
  {
    if n < |findings| {
      var init := findings[..|findings| - 1];
      CachePassPrefix(entries, init, n, key, now);
      assert init[..n] == findings[..n];
    } else {
      assert findings[..n] == findings;
    }
  }

  /** Findings of one run with equal fingerprints end up with the same remediation
      text, once an earlier one has a non-empty text: a later finding takes the
      text an earlier one was given. */
  lemma CacheConsistent(entries: map<string, Entry>, findings: seq<GeneratedFinding>, i: nat, j: nat,
                        key: GeneratedFinding -> string, now: int)
    requires i < j < |findings| && key(findings[i]) == key(findings[j])
    requires CachePass(entries, findings, key, now).0[i].remediationPlan != ""
    ensures CachePass(entries, findings, key, now).0[j].remediationPlan
            == CachePass(entries, findings, key, now).0[i].remediationPlan
  {
    var out := CachePass(entries, findings, key, now).0;
    CachePassPrefix(entries, findings, j + 1, key, now);
    CachePassExtends(entries, findings, j, key, now);
    var pass := CachePass(entries, findings[..j], key, now);
    CachePassRemembers(entries, findings[..j], key, now);
    assert out[j] == CacheOne(pass.1, findings[j], key, now).0;
    assert out[i] == out[..j + 1][i] == pass.0[i];
  }

  /** With an empty cache and no two findings sharing a fingerprint, every finding
      keeps its own plan and the cache ends up holding exactly their keys. */
  lemma {:induction false} FreshCacheKeepsPlans(findings: seq<GeneratedFinding>, key: GeneratedFinding -> string, now: int)
    requires forall i, j :: 0 <= i < j < |findings| ==> key(findings[i]) != key(findings[j])
    ensures CachePass(map[], findings, key, now).0 == findings
    ensures CachePass(map[], findings, key, now).1.Keys == set i | 0 <= i < |findings| :: key(findings[i])
    decreases |findings|
  {
    if findings != [] {
      var init := findings[..|findings| - 1];
      var last := findings[|findings| - 1];
      FreshCacheKeepsPlans(init, key, now);
      var mid := CachePass(map[], init, key, now).1;
      assert key(last) !in mid;
      assert (set i | 0 <= i < |findings| :: key(findings[i]))
             == (set i | 0 <= i < |init| :: key(init[i])) + {key(last)};
    }
  }

  // ---------------------------------------------------------------------------
  // The finding records

  /** The record written for one finding: linked to the audit, a missing status
      defaulting to OPEN, and an absent fix or score left `undefined`. */
  function ToFindingRecord(auditRecordId: string, f: GeneratedFinding): Fields
  {
    map["audit" := Links([auditRecordId]), "severity" := Text(f.severity),
        "status" := Text(if f.status == "" then "OPEN" else f.status),
        "category" := Text(f.category), "finding_title" := Text(f.findingTitle),
        "remediation_plan" := Text(f.remediationPlan),
        "ai_fix_code" := if f.aiFixCode.Some? then Text(f.aiFixCode.value) else Undefined,
        "edge_score_component" := if f.edgeScoreComponent.Some? then Number(f.edgeScoreComponent.value) else Undefined]
  }

  function FindingRecords(auditRecordId: string, findings: seq<GeneratedFinding>): (records: seq<Fields>)
    ensures |records| == |findings|
  {
    seq(|findings|, k requires 0 <= k < |findings| => ToFindingRecord(auditRecordId, findings[k]))
  }

  /** A stored finding that belongs to audit `id`: it links to that audit alone
      and carries a non-empty status. */
  predicate LinkedFinding(record: Fields, id: string)
  {
    "audit" in record && record["audit"] == Links([id]) && "status" in record && record["status"].Text?
    && record["status"].s != ""
  }

  /** The record of one finding passes the findings shield whole, links to the
      audit, and keeps the generator's status and plan, an empty status becoming
      OPEN. */
  lemma ToFindingRecordShape(id: string, f: GeneratedFinding)
    ensures Shielded(ToFindingRecord(id, f)) && LinkedFinding(ToFindingRecord(id, f), id)
    ensures f.status != "" ==> ToFindingRecord(id, f)["status"] == Text(f.status)
    ensures f.status == "" ==> ToFindingRecord(id, f)["status"] == Text("OPEN")
    ensures ToFindingRecord(id, f)["remediation_plan"] == Text(f.remediationPlan)
  {
    assert ToFindingRecord(id, f).Keys == {"audit", "severity", "status", "category", "finding_title",
                                           "remediation_plan", "ai_fix_code", "edge_score_component"};
  }

  /** Every record sent to the batch writer is shielded and linked to the audit. */
  lemma FindingRecordsProjected(id: string, findings: seq<GeneratedFinding>)
    ensures AllShielded(FindingRecords(id, findings))
    ensures forall k :: 0 <= k < |findings| ==> LinkedFinding(FindingRecords(id, findings)[k], id)
  {
    forall k | 0 <= k < |findings|
      ensures Shielded(FindingRecords(id, findings)[k]) && LinkedFinding(FindingRecords(id, findings)[k], id)
    {
      ToFindingRecordShape(id, findings[k]);
    }
  }

  /** What the batch writer stores for a run's findings: one record per finding
      counted created, each linked to the audit. */
  lemma StoredRecordsLinked(id: string, findings: seq<GeneratedFinding>, rejected: set<nat>)
    ensures var stored := Batch(FindingRecords(id, findings), rejected).stored;
            |stored| == Batch(FindingRecords(id, findings), rejected).counts.created
            && forall m :: 0 <= m < |stored| ==> LinkedFinding(stored[m], id)
  {
    var records := FindingRecords(id, findings);
    FindingRecordsProjected(id, findings);
    BatchStoresShielded(records, rejected, 0);
    BatchStoresInputs(records, rejected, 0);
    var stored := Batch(records, rejected).stored;
    forall m | 0 <= m < |stored|
      ensures LinkedFinding(stored[m], id)
    {
      var k :| 0 <= k < |records| && records[k] == stored[m];
    }
  }

  // ---------------------------------------------------------------------------
  // A run

  /** How the `try` block ends: with the number of findings created, or with the
      message of the error it threw. */
  datatype TryResult = Finished(created: nat) | Raised(message: string)

  /** The store and the cache as a run leaves them. */
  datatype Outcome = Outcome(result: ProcessResult, audits: map<string, Fields>, findings: seq<Fields>,
                             entries: map<string, Entry>)

  /** The `try` block: read and validate the record, analyse, pass the findings
      through the cache, write them in batches, and patch the record COMPLETE. */
  function TrySpec(configured: bool, audits: map<string, Fields>, findings: seq<Fields>,
                   entries: map<string, Entry>, id: string, env: Environment)
    : (TryResult, map<string, Fields>, seq<Fields>, map<string, Entry>)
  {
    match Analyzed(configured, audits, id, env)
    case Failure(e) => (Raised(e), audits, findings, entries)
    case Success(result) => Finish(configured, audits, findings, entries, id, env, result)
  }

  /** The first part of the `try` block: read and validate the record, then
      analyse it; the analyzer's result or the first error thrown. */
  function Analyzed(configured: bool, audits: map<string, Fields>, id: string, env: Environment): Result<AnalysisResult>
  {
    match Validate(Fetch(configured, audits, id, env.fetchOk), id)
    case Failure(e) => Failure(e)
    case Success(audit) => Analysis(PromptOf(audit), env.service, env.parse)
  }

  /** The rest of the `try` block once the analyzer has returned `result`: the
      cache pass, the batch write and the COMPLETE patch. */
  function Finish(configured: bool, audits: map<string, Fields>, findings: seq<Fields>,
                  entries: map<string, Entry>, id: string, env: Environment, result: AnalysisResult)
    : (TryResult, map<string, Fields>, seq<Fields>, map<string, Entry>)
  {
    var pass := CachePass(entries, result.findings, Fingerprint(env.hash), env.now);
    var run := Batch(FindingRecords(id, pass.0), env.rejectedChunks);
    var after := Update(configured, audits, id, CompletePatch(result, env.completedAt), env.finalWriteOk).1;
    (Finished(run.counts.created), after, findings + run.stored, pass.1)
  }

  /** `processAudit`: the RUNNING patch, the `try` block, and on an error the
      FAILED or PENDING patch with the error message. */
  function Run(configured: bool, audits: map<string, Fields>, findings: seq<Fields>,
               entries: map<string, Entry>, id: string, env: Environment): Outcome
  {
    var marked := Update(configured, audits, id, RunningPatch, env.markRunningOk).1;
    var (t, a, f, e) := TrySpec(configured, marked, findings, entries, id, env);
    match t
    case Finished(created) => Outcome(ProcessResult(true, id, Some(created), Complete, None), a, f, e)
    case Raised(message) =>
      var status := Classify(message);
      Outcome(ProcessResult(false, id, None, status, Some(message)),
              Update(configured, a, id, FailurePatch(status, message), env.finalWriteOk).1, f, e)
  }

  /** The `try` block of `processAudit`. */
  method TryProcess(store: RecordStore, cache: RemediationCache, id: string, env: Environment) returns (t: TryResult)
    modifies store, cache
    ensures (t, store.audits, store.findings, cache.entries)
            == TrySpec(store.configured, old(store.audits), old(store.findings), old(cache.entries), id, env)
  {
    var audit := store.GetAuditRecord(id, env.fetchOk);
    if audit.None? {
      return Raised(NotFoundError(id));
    }
    if audit.value.htmlHome.None? || audit.value.htmlHome.value == "" {
      return Raised(MissingHomeError);
    }
    var record := audit.value;
    var result := AnalyzeHtmlAndGenerateFindings(record.htmlHome.value, record.htmlContact, record.htmlPrivacy,
                                                 record.policyText, record.techStackJson, record.formsDetectedJson,
                                                 env.service, env.parse);
    if result.Failure? {
      return Raised(result.error);
    }
    var graded := ApplyCache(cache, result.value.findings, Fingerprint(env.hash), env.now);
    var counts;
    ghost var requests;
    counts, requests := store.CreateFindingsBatch(FindingRecords(id, graded), env.rejectedChunks);
    if counts.Failure? {
      // The read succeeded, so the client is configured and the batch writer's
      // only error, the configuration check, cannot reach this handler.
      assert false;
    }
    var completed := store.UpdateAuditRecord(id, CompletePatch(result.value, env.completedAt), env.finalWriteOk);
    t := Finished(counts.value.created);
  }

  /** `processAudit(auditRecordId)`. */
  method ProcessAudit(store: RecordStore, cache: RemediationCache, id: string, env: Environment) returns (r: ProcessResult)
    modifies store, cache
    ensures Outcome(r, store.audits, store.findings, cache.entries)
            == Run(store.configured, old(store.audits), old(store.findings), old(cache.entries), id, env)
  {
    var marked := store.UpdateAuditRecord(id, RunningPatch, env.markRunningOk);
    var t := TryProcess(store, cache, id, env);
    match t
    case Finished(created) =>
      r := ProcessResult(true, id, Some(created), Complete, None);
    case Raised(message) =>
      var status := if IsRateLimitError(message) then Pending else Failed;
      var recorded := store.UpdateAuditRecord(id, FailurePatch(status, message), env.finalWriteOk);
      r := ProcessResult(false, id, None, status, Some(message));
  }

  // ---------------------------------------------------------------------------
  // Properties of a run

  /** What the `try` block does to the audits: the record set is kept and every
      other record is untouched; an error leaves the audits as they were. */
  lemma TryAudits(configured: bool, audits: map<string, Fields>, findings: seq<Fields>,
                  entries: map<string, Entry>, id: string, env: Environment)
    ensures var t := TrySpec(configured, audits, findings, entries, id, env);
            t.1.Keys == audits.Keys && (forall k :: k in audits && k != id ==> t.1[k] == audits[k])
            && (t.0.Raised? ==> t.1 == audits)
  {
    match Analyzed(configured, audits, id, env)
    case Failure(_) =>
    case Success(result) =>
      UpdateWritesShielded(configured, audits, id, CompletePatch(result, env.completedAt), env.finalWriteOk);
  }

  /** What the `try` block does to the findings and the cache: findings are only
      appended, an error leaves findings and cache as they were, and on success
      the count returned is the number of records appended, each linked to the
      audit. */
  lemma TryFindings(configured: bool, audits: map<string, Fields>, findings: seq<Fields>,
                    entries: map<string, Entry>, id: string, env: Environment)
    ensures var t := TrySpec(configured, audits, findings, entries, id, env);
            |findings| <= |t.2| && t.2[..|findings|] == findings
            && (t.0.Raised? ==> t.2 == findings && t.3 == entries)
            && (t.0.Finished? ==> t.0.created == |t.2| - |findings|
                                  && forall m :: |findings| <= m < |t.2| ==> LinkedFinding(t.2[m], id))
  {
    match Analyzed(configured, audits, id, env)
    case Failure(_) =>
    case Success(result) =>
      FinishFindings(configured, audits, findings, entries, id, env, result);
  }

  /** `TryFindings` for the part after the analyzer. */
  lemma FinishFindings(configured: bool, audits: map<string, Fields>, findings: seq<Fields>,
                       entries: map<string, Entry>, id: string, env: Environment, result: AnalysisResult)
    ensures var t := Finish(configured, audits, findings, entries, id, env, result);
            t.0.Finished? && |findings| <= |t.2| && t.2[..|findings|] == findings && t.0.created == |t.2| - |findings|
            && forall m :: |findings| <= m < |t.2| ==> LinkedFinding(t.2[m], id)
  {
    var graded := CachePass(entries, result.findings, Fingerprint(env.hash), env.now).0;
    StoredRecordsLinked(id, graded, env.rejectedChunks);
    var stored := Batch(FindingRecords(id, graded), env.rejectedChunks).stored;
    assert (findings + stored)[..|findings|] == findings;
    forall m | |findings| <= m < |findings + stored|
      ensures LinkedFinding((findings + stored)[m], id)
    {
      assert (findings + stored)[m] == stored[m - |findings|];
    }
  }

  /** The result echoes the id; it is ok exactly when the status is COMPLETE,
      exactly when a count is reported, exactly when no error is; a failed run's
      status is the classification of its error. */
  lemma RunReports(configured: bool, audits: map<string, Fields>, findings: seq<Fields>,
                   entries: map<string, Entry>, id: string, env: Environment)
    ensures var r := Run(configured, audits, findings, entries, id, env).result;
            r.auditRecordId == id
            && (r.ok <==> r.status == Complete) && (r.ok <==> r.findingsCreated.Some?) && (r.ok <==> r.error.None?)
            && (!r.ok ==> r.status == Classify(r.error.value))
  {
  }

  /** A run keeps the record set and touches no other record. */
  lemma RunAudits(configured: bool, audits: map<string, Fields>, findings: seq<Fields>,
                  entries: map<string, Entry>, id: string, env: Environment)
    ensures var o := Run(configured, audits, findings, entries, id, env);
            o.audits.Keys == audits.Keys && forall k :: k in audits && k != id ==> o.audits[k] == audits[k]
  {
    var marked := Update(configured, audits, id, RunningPatch, env.markRunningOk).1;
    UpdateWritesShielded(configured, audits, id, RunningPatch, env.markRunningOk);
    TryAudits(configured, marked, findings, entries, id, env);
    var t := TrySpec(configured, marked, findings, entries, id, env);
    if t.0.Raised? {
      var status := Classify(t.0.message);
      UpdateWritesShielded(configured, t.1, id, FailurePatch(status, t.0.message), env.finalWriteOk);
    }
  }

  /** Findings are only appended, never rolled back; a failed run writes none and
      leaves the cache as it was; the count a successful run reports is the number
      of records it appended (even when some findings failed to be created), each
      linked to the audit. */
  lemma RunFindings(configured: bool, audits: map<string, Fields>, findings: seq<Fields>,
                    entries: map<string, Entry>, id: string, env: Environment)
    ensures var o := Run(configured, audits, findings, entries, id, env);
            |findings| <= |o.findings| && o.findings[..|findings|] == findings
            && (!o.result.ok ==> o.findings == findings && o.entries == entries)
            && (o.result.ok ==> o.result.findingsCreated.Some?
                                && o.result.findingsCreated.value == |o.findings| - |findings|
                                && forall m :: |findings| <= m < |o.findings| ==> LinkedFinding(o.findings[m], id))
  {
    var marked := Update(configured, audits, id, RunningPatch, env.markRunningOk).1;
    TryFindings(configured, marked, findings, entries, id, env);
    var t := TrySpec(configured, marked, findings, entries, id, env);
    var o := Run(configured, audits, findings, entries, id, env);
    assert o.findings == t.2 && o.entries == t.3;
    assert o.result.ok ==> t.0.Finished? && o.result.findingsCreated == Some(t.0.created);
  }

  /** When the final patch is accepted, the record's status is the run's status,
      and its last error is the run's error (empty on success). */
  lemma RunRecordsStatus(configured: bool, audits: map<string, Fields>, findings: seq<Fields>,
                         entries: map<string, Entry>, id: string, env: Environment)
    requires configured && id in audits && env.finalWriteOk
    ensures var o := Run(configured, audits, findings, entries, id, env);
            id in o.audits && "bot_b_status" in o.audits[id] && "last_error" in o.audits[id]
            && o.audits[id]["bot_b_status"] == Text(StatusText(o.result.status))
            && o.audits[id]["last_error"] == Text(if o.result.ok then "" else o.result.error.value)
  {
    var marked := Update(configured, audits, id, RunningPatch, env.markRunningOk).1;
    UpdateWritesShielded(configured, audits, id, RunningPatch, env.markRunningOk);
    assert id in marked;
    var t := TrySpec(configured, marked, findings, entries, id, env);
    match Analyzed(configured, marked, id, env)
    case Failure(e) =>
      assert t == (Raised(e), marked, findings, entries);
      FailurePatchRecorded(marked, id, Classify(e), e);
    case Success(result) =>
      assert t == Finish(configured, marked, findings, entries, id, env, result);
      CompletePatchRecorded(marked, id, result, env.completedAt);
  }

  /** A run is ok exactly when reading, validating and analysing the record
      succeeds: nothing after the analyzer can make it fail. */
  lemma RunOkIffAnalyzed(configured: bool, audits: map<string, Fields>, findings: seq<Fields>,
                         entries: map<string, Entry>, id: string, env: Environment)
    ensures Run(configured, audits, findings, entries, id, env).result.ok
            <==> Analyzed(configured, audits, id, env).Success?
  {
    AnalyzedIgnoresRunningPatch(configured, audits, id, env, env.markRunningOk);
  }

  /** When the run succeeds and the final patch is accepted, the record holds the
      analyzer's three narratives, the completion time, COMPLETE and an empty last
      error, and its other fields are as the RUNNING patch left them. */
  lemma RunRecordsCompletion(configured: bool, audits: map<string, Fields>, findings: seq<Fields>,
                             entries: map<string, Entry>, id: string, env: Environment)
    requires configured && id in audits && env.finalWriteOk
    ensures var o := Run(configured, audits, findings, entries, id, env);
            var a := Analyzed(configured, audits, id, env);
            var marked := Update(configured, audits, id, RunningPatch, env.markRunningOk).1;
            o.result.ok ==>
              a.Success? && id in marked
              && id in o.audits && o.audits[id] == marked[id] + CompletePatch(a.value, env.completedAt)
              && o.audits[id]["exec_summary"] == Text(a.value.execSummary)
              && o.audits[id]["risk_analysis"] == Text(a.value.riskAnalysis)
              && o.audits[id]["remediation_overview"] == Text(a.value.remediationOverview)
              && o.audits[id]["scan_completed_at"] == Text(env.completedAt)
  {
    var marked := Update(configured, audits, id, RunningPatch, env.markRunningOk).1;
    UpdateWritesShielded(configured, audits, id, RunningPatch, env.markRunningOk);
    AnalyzedIgnoresRunningPatch(configured, audits, id, env, env.markRunningOk);
    var a := Analyzed(configured, marked, id, env);
    if a.Success? {
      CompletedAudits(configured, audits, findings, entries, id, env, a.value);
      CompletePatchFields(marked[id], a.value, env.completedAt);
    }
  }

  /** After the analyzer, an accepted COMPLETE patch is what the run leaves in the
      audits. */
  lemma CompletedAudits(configured: bool, audits: map<string, Fields>, findings: seq<Fields>,
                        entries: map<string, Entry>, id: string, env: Environment, result: AnalysisResult)
    requires configured && id in audits && env.finalWriteOk
    requires Analyzed(configured, Update(configured, audits, id, RunningPatch, env.markRunningOk).1, id, env)
             == Success(result)
    ensures var marked := Update(configured, audits, id, RunningPatch, env.markRunningOk).1;
            var o := Run(configured, audits, findings, entries, id, env);
            id in marked && o.result.ok && id in o.audits && o.audits[id] == marked[id] + CompletePatch(result, env.completedAt)
  {
    var marked := Update(configured, audits, id, RunningPatch, env.markRunningOk).1;
    UpdateWritesShielded(configured, audits, id, RunningPatch, env.markRunningOk);
    var t := TrySpec(configured, marked, findings, entries, id, env);
    assert t == Finish(configured, marked, findings, entries, id, env, result);
    FinishAudits(configured, marked, findings, entries, id, env, result);
    RunAfterTry(configured, audits, findings, entries, id, env);
    CompletePatchRecorded(marked, id, result, env.completedAt);
    assert t.0.Finished? && t.1 == Update(true, marked, id, CompletePatch(result, env.completedAt), true).1;
  }

  /** The rest of the `try` block after the analyzer finishes, and patches the
      record with the COMPLETE patch only. */
  lemma FinishAudits(configured: bool, audits: map<string, Fields>, findings: seq<Fields>,
                     entries: map<string, Entry>, id: string, env: Environment, result: AnalysisResult)
    ensures var t := Finish(configured, audits, findings, entries, id, env, result);
            t.0.Finished? && t.1 == Update(configured, audits, id, CompletePatch(result, env.completedAt), env.finalWriteOk).1
  {
  }

  /** A `try` block that finishes makes the run ok, and the run leaves the audits
      as the block left them. */
  lemma RunAfterTry(configured: bool, audits: map<string, Fields>, findings: seq<Fields>,
                    entries: map<string, Entry>, id: string, env: Environment)
    ensures var marked := Update(configured, audits, id, RunningPatch, env.markRunningOk).1;
            var t := TrySpec(configured, marked, findings, entries, id, env);
            var o := Run(configured, audits, findings, entries, id, env);
            t.0.Finished? ==> o.result.ok && o.audits == t.1
  {
  }

  /** The fields the COMPLETE patch sets, read back from a record it was merged into. */
  lemma CompletePatchFields(fields: Fields, result: AnalysisResult, completedAt: string)
    ensures var after := fields + CompletePatch(result, completedAt);
            && after["exec_summary"] == Text(result.execSummary)
            && after["risk_analysis"] == Text(result.riskAnalysis)
            && after["remediation_overview"] == Text(result.remediationOverview)
            && after["scan_completed_at"] == Text(completedAt)
  {
  }

  /** The RUNNING patch touches no field the analysis reads, so the analysis of
      the record is the same before and after it. */
  lemma AnalyzedIgnoresRunningPatch(configured: bool, audits: map<string, Fields>, id: string,
                                    env: Environment, accept: bool)
    ensures Analyzed(configured, Update(configured, audits, id, RunningPatch, accept).1, id, env)
            == Analyzed(configured, audits, id, env)
  {
    if configured && accept && id in audits {
      PatchesPassShield(FallbackResult, "", Failed, "");
      assert "bot_b_status" in RunningPatch;
      assert Update(configured, audits, id, RunningPatch, accept).1 == audits[id := audits[id] + RunningPatch];
      AnalyzedOfMarked(configured, audits, id, env);
    }
  }

  /** The analysis of a record with the RUNNING patch merged in is that of the record. */
  lemma AnalyzedOfMarked(configured: bool, audits: map<string, Fields>, id: string, env: Environment)
    requires id in audits
    ensures Analyzed(configured, audits[id := audits[id] + RunningPatch], id, env) == Analyzed(configured, audits, id, env)
  {
    if configured && env.fetchOk {
      MarkedRecord(id, audits[id]);
      var before := ToAuditRecord(id, audits[id]);
      if before.htmlHome.Some? && before.htmlHome.value != "" {
        assert PromptOf(before.(botBStatus := Some("RUNNING"))) == PromptOf(before);
      }
    }
  }

  /** The RUNNING patch changes only the status the record reads back with. */
  lemma MarkedRecord(id: string, fields: Fields)
    ensures ToAuditRecord(id, fields + RunningPatch) == ToAuditRecord(id, fields).(botBStatus := Some("RUNNING"))
  {
    var marked := fields + RunningPatch;
    assert forall name :: name != "bot_b_status" ==> TextField(marked, name) == TextField(fields, name);
    assert TextField(marked, "bot_b_status") == Some("RUNNING");
  }

  /** The COMPLETE patch, accepted, sets the status and clears the last error. */
  lemma CompletePatchRecorded(audits: map<string, Fields>, id: string, result: AnalysisResult, completedAt: string)
    requires id in audits
    ensures var after := Update(true, audits, id, CompletePatch(result, completedAt), true).1;
            id in after && after[id] == audits[id] + CompletePatch(result, completedAt)
  {
    PatchesPassShield(result, completedAt, Failed, "");
    assert "bot_b_status" in CompletePatch(result, completedAt);
  }

  /** The failure patch, accepted, sets the status and the last error. */
  lemma FailurePatchRecorded(audits: map<string, Fields>, id: string, status: Status, message: string)
    requires id in audits
    ensures var after := Update(true, audits, id, FailurePatch(status, message), true).1;
            id in after && after[id] == audits[id] + FailurePatch(status, message)
  {
    PatchesPassShield(FallbackResult, "", status, message);
    assert "bot_b_status" in FailurePatch(status, message);
  }

  /** When the final patch is refused but the RUNNING one was accepted, the record
      is left RUNNING and nothing else about the audits changes. */
  lemma RunLeftRunning(configured: bool, audits: map<string, Fields>, findings: seq<Fields>,
                       entries: map<string, Entry>, id: string, env: Environment)
    requires configured && id in audits && env.markRunningOk && !env.finalWriteOk
    ensures Run(configured, audits, findings, entries, id, env).audits == audits[id := audits[id] + RunningPatch]
  {
    PatchesPassShield(FallbackResult, "", Failed, "");
    var marked := Update(configured, audits, id, RunningPatch, env.markRunningOk).1;
    assert "bot_b_status" in RunningPatch;
    assert marked == audits[id := audits[id] + RunningPatch];
    match Analyzed(configured, marked, id, env)
    case Failure(e) =>
    case Success(result) =>
      assert Finish(configured, marked, findings, entries, id, env, result).1 == marked;
  }

  /** A record the read cannot return ends the run with the not-found error; no
      finding is written and the cache is not touched. */
  lemma RunNotFound(configured: bool, audits: map<string, Fields>, findings: seq<Fields>,
                    entries: map<string, Entry>, id: string, env: Environment)
    requires !configured || !env.fetchOk || id !in audits
    ensures var o := Run(configured, audits, findings, entries, id, env);
            o.result == ProcessResult(false, id, None, Classify(NotFoundError(id)), Some(NotFoundError(id)))
            && o.findings == findings && o.entries == entries
            && (!configured || id !in audits ==> o.audits == audits)
  {
    var marked := Update(configured, audits, id, RunningPatch, env.markRunningOk).1;
    UpdateWritesShielded(configured, audits, id, RunningPatch, env.markRunningOk);
    assert Analyzed(configured, marked, id, env) == Failure(NotFoundError(id));
  }

  /** A record without a usable `html_home` ends the run FAILED with the
      missing-field error, before the analyzer: the outcome is the same whatever
      the generative service and the parser would have done. */
  lemma RunMissingHome(configured: bool, audits: map<string, Fields>, findings: seq<Fields>,
                       entries: map<string, Entry>, id: string, env: Environment,
                       service: Service, parse: JsonParser)
    requires configured && env.fetchOk && id in audits
    requires TextField(audits[id], "html_home") == None || TextField(audits[id], "html_home") == Some("")
    ensures var o := Run(configured, audits, findings, entries, id, env);
            o.result == ProcessResult(false, id, None, Failed, Some(MissingHomeError))
            && o.findings == findings && o.entries == entries
            && Run(configured, audits, findings, entries, id, env.(service := service, parse := parse)) == o
  {
    var marked := Update(configured, audits, id, RunningPatch, env.markRunningOk).1;
    PatchesPassShield(FallbackResult, "", Failed, "");
    assert TextField(marked[id], "html_home") == TextField(audits[id], "html_home");
    assert Analyzed(configured, marked, id, env) == Failure(MissingHomeError);
    assert Analyzed(configured, marked, id, env.(service := service, parse := parse)) == Failure(MissingHomeError);
    MissingHomeIsFailed();
  }
}

/** The record-store client: one audit read, audit patches and finding creates,
    every write routed through the write shield. The store itself is a map from
    record id to field map (audits) and an append-only list (findings); every
    remote call is given an oracle argument that says whether the store accepts it. */
module Airtable {
  import opened Wrappers
  import opened WriteShield

  /** Bulk creates carry at most this many records. */
  const BatchSize: nat := 10

  /** The message of the configuration check `ensureInitialized`. */
  const NotConfiguredError: string := "Airtable not configured - missing AIRTABLE_API_KEY or AIRTABLE_BASE_ID secrets"

  /** An audit record as `getAuditRecord` returns it. */
  datatype AuditRecord = AuditRecord(
    id: string, client: Option<seq<string>>, clientEmail: Option<string>, purchaseTier: Option<string>,
    htmlHome: Option<string>, htmlContact: Option<string>, htmlPrivacy: Option<string>,
    policyText: Option<string>, techStackJson: Option<string>, formsDetectedJson: Option<string>,
    botAStatus: Option<string>, botBStatus: Option<string>, execSummary: Option<string>,
    riskAnalysis: Option<string>, remediationOverview: Option<string>, lastError: Option<string>,
    scanCompletedAt: Option<string>)

  /** `record.get(name) as string | undefined`. */
  function TextField(fields: Fields, name: string): Option<string>
  {
    if name in fields && fields[name].Text? then Some(fields[name].s) else None
  }

  /** The projection of a stored record's fields onto an `AuditRecord`. */
  function ToAuditRecord(id: string, fields: Fields): AuditRecord
  {
    AuditRecord(
      id,
      if "client" in fields && fields["client"].Links? then Some(fields["client"].ids) else None,
      TextField(fields, "client_email"), TextField(fields, "purchase_tier"),
      TextField(fields, "html_home"), TextField(fields, "html_contact"), TextField(fields, "html_privacy"),
      TextField(fields, "policy_text"), TextField(fields, "tech_stack_json"),
      TextField(fields, "forms_detected_json"), TextField(fields, "bot_a_status"),
      TextField(fields, "bot_b_status"), TextField(fields, "exec_summary"),
      TextField(fields, "risk_analysis"), TextField(fields, "remediation_overview"),
      TextField(fields, "last_error"), TextField(fields, "scan_completed_at"))
  }

  /** `getAuditRecord`: the record, or `None` when the client is not configured,
      the store cannot be reached, or there is no such record. */
  function Fetch(configured: bool, audits: map<string, Fields>, recordId: string, reachable: bool): Option<AuditRecord>
  {
    if configured && reachable && recordId in audits then Some(ToAuditRecord(recordId, audits[recordId]))
    else None
  }

  /** `updateAuditRecord`: whether it reports success, and the audits afterwards.
      Only the shielded fields are patched into the record; nothing is written
      when the client is not configured, when nothing survives the shield, or
      when the store rejects the call or has no such record. */
  function Update(configured: bool, audits: map<string, Fields>, recordId: string,
                  fields: Fields, accept: bool): (bool, map<string, Fields>)
  {
    var safe := Permitted(fields, AuditsWriteAllowlist);
    if configured && safe != map[] && accept && recordId in audits
    then (true, audits[recordId := audits[recordId] + safe])
    else (false, audits)
  }

  /** `createFindingRecord`: the new record's id and the findings afterwards.
      `outcome` is the store's answer: the id it assigns, or `None` if it fails. */
  function CreateOne(configured: bool, findings: seq<Fields>, fields: Fields,
                     outcome: Option<string>): (Option<string>, seq<Fields>)
  {
    var safe := Permitted(fields, FindingsWriteAllowlist);
    if configured && safe != map[] && outcome.Some? then (outcome, findings + [safe])
    else (None, findings)
  }

  /** The counters `createFindingsBatch` returns. */
  datatype Counts = Counts(created: nat, failed: nat)

  /** The shielded records of a chunk that still have a field, in input order. */
  function ValidRecords(batch: seq<Fields>): (valid: seq<Fields>)
    ensures |valid| <= |batch|
  {
    if batch == [] then []
    else
      var safe := Permitted(batch[0], FindingsWriteAllowlist);
      (if safe != map[] then [safe] else []) + ValidRecords(batch[1..])
  }

  /** What the batch writer does over some chunks: the counters, the record
      lists it submits (one bulk create per chunk that has a valid record) and the
      records the store keeps. */
  datatype BatchRun = BatchRun(counts: Counts, requests: seq<seq<Fields>>, stored: seq<Fields>)

  const NoChunks: BatchRun := BatchRun(Counts(0, 0), [], [])

  /** One run followed by another. */
  function Then(a: BatchRun, b: BatchRun): BatchRun
  {
    BatchRun(Counts(a.counts.created + b.counts.created, a.counts.failed + b.counts.failed),
             a.requests + b.requests, a.stored + b.stored)
  }

  /** One chunk of `size` records of which `valid` survive the shield: no call and
      all failed when none survive; otherwise one bulk create, which either stores
      the valid records (the others failed) or is rejected (all failed). */
  function ChunkRun(size: nat, valid: seq<Fields>, accepted: bool): BatchRun
    requires |valid| <= size
  {
    if valid == [] then BatchRun(Counts(0, size), [], [])
    else if accepted then BatchRun(Counts(|valid|, size - |valid|), [valid], valid)
    else BatchRun(Counts(0, size), [valid], [])
  }

  /** The length of the chunk taken from the front of `rest`: ten while ten
      remain, otherwise all of the shorter rest. */
  function ChunkLength(rest: seq<Fields>): (n: nat)
    ensures |rest| >= BatchSize ==> n == BatchSize
    ensures |rest| < BatchSize ==> n == |rest|
    ensures n <= |rest| && (rest != [] ==> n > 0)
  {
    if |rest| < BatchSize then |rest| else BatchSize
  }

  /** The batch writer on the records still to write, `rest`, whose first chunk is
      chunk number `j`; `rejected` holds the numbers of the chunks whose bulk create
      the store rejects. */
  function BatchFrom(rest: seq<Fields>, rejected: set<nat>, j: nat): BatchRun
    decreases |rest|
  {
    if rest == [] then NoChunks
    else
      var n := ChunkLength(rest);
      Then(ChunkRun(n, ValidRecords(rest[..n]), j !in rejected), BatchFrom(rest[n..], rejected, j + 1))
  }

  /** The whole batch. */
  function Batch(records: seq<Fields>, rejected: set<nat>): BatchRun
  {
    BatchFrom(records, rejected, 0)
  }

  /** Writing the chunk at `i` moves the writer on to the chunk at `end`. */
  lemma NextChunk(records: seq<Fields>, rejected: set<nat>, i: nat, j: nat, end: nat, step: BatchRun)
    requires i < |records| && end == if i + BatchSize <= |records| then i + BatchSize else |records|
    requires step == ChunkRun(end - i, ValidRecords(records[i..end]), j !in rejected)
    ensures BatchFrom(records[i..], rejected, j) == Then(step, BatchFrom(records[end..], rejected, j + 1))
  {
    assert records[i..][..end - i] == records[i..end] && records[i..][end - i..] == records[end..];
  }

  /** The loop's invariant survives one chunk: what is done, then this chunk,
      then the remaining records, is still the whole batch. */
  lemma WriterAdvances(records: seq<Fields>, rejected: set<nat>, i: nat, j: nat, end: nat,
                       done: BatchRun, step: BatchRun)
    requires i < |records| && end == if i + BatchSize <= |records| then i + BatchSize else |records|
    requires step == ChunkRun(end - i, ValidRecords(records[i..end]), j !in rejected)
    requires Batch(records, rejected) == Then(done, BatchFrom(records[i..], rejected, j))
    ensures Batch(records, rejected) == Then(Then(done, step), BatchFrom(records[end..], rejected, j + 1))
  {
    NextChunk(records, rejected, i, j, end, step);
    ThenAssociative(done, step, BatchFrom(records[end..], rejected, j + 1));
  }

  lemma AppendAssociative<T>(a: seq<T>, b: seq<T>, c: seq<T>)
    ensures (a + b) + c == a + (b + c)
  {
  }

  lemma ThenAssociative(a: BatchRun, b: BatchRun, c: BatchRun)
    ensures Then(Then(a, b), c) == Then(a, Then(b, c))
  {
    assert (a.requests + b.requests) + c.requests == a.requests + (b.requests + c.requests);
    assert (a.stored + b.stored) + c.stored == a.stored + (b.stored + c.stored);
  }

  /** The store: audit records by id and the list of created findings; the
      configuration is fixed when the client is set up. */
  class RecordStore {
    const configured: bool
    var audits: map<string, Fields>
    var findings: seq<Fields>

    constructor (configured: bool, audits: map<string, Fields>)
      ensures this.configured == configured && this.audits == audits && findings == []
    {
      this.configured := configured;
      this.audits := audits;
      findings := [];
    }

    /** `getAuditRecord`: failures are reported as `None`, never thrown. */
    method GetAuditRecord(recordId: string, reachable: bool) returns (r: Option<AuditRecord>)
      ensures r == Fetch(configured, audits, recordId, reachable)
    {
      if !configured || !reachable || recordId !in audits {
        return None;
      }
      r := Some(ToAuditRecord(recordId, audits[recordId]));
    }

    /** `updateAuditRecord(recordId, fields)`. */
    method UpdateAuditRecord(recordId: string, fields: Fields, accept: bool) returns (ok: bool)
      modifies this
      ensures (ok, audits) == Update(configured, old(audits), recordId, fields, accept)
      ensures findings == old(findings)
    {
      if !configured {
        return false;
      }
      var safe, violations := ShieldAuditPatchFields(Some(fields));
      if |safe.Keys| == 0 {
        return false;
      }
      if !accept || recordId !in audits {
        return false;
      }
      audits := audits[recordId := audits[recordId] + safe];
      ok := true;
    }

    /** `createFindingRecord(fields)`. */
    method CreateFindingRecord(fields: Fields, outcome: Option<string>) returns (id: Option<string>)
      modifies this
      ensures (id, findings) == CreateOne(configured, old(findings), fields, outcome)
      ensures audits == old(audits)
    {
      if !configured {
        return None;
      }
      var safe, violations := ShieldFindingCreateFields(Some(fields));
      if |safe.Keys| == 0 {
        return None;
      }
      if outcome.None? {
        return None;
      }
      findings := findings + [safe];
      id := outcome;
    }

    /** `createFindingsBatch(records)`: chunks of ten, each shielded record by
      record; a chunk without valid records makes no call, and a rejected call
      counts its whole chunk as failed. The only error is the configuration check,
      raised before any chunk is written. `requests` is the trace of bulk creates. */
    method CreateFindingsBatch(records: seq<Fields>, rejected: set<nat>)
      returns (r: Result<Counts>, ghost requests: seq<seq<Fields>>)
      modifies this
      ensures audits == old(audits)
      ensures !configured ==> r == Failure(NotConfiguredError) && findings == old(findings) && requests == []
      ensures configured ==> r == Success(Batch(records, rejected).counts)
      ensures configured ==> requests == Batch(records, rejected).requests
      ensures configured ==> findings == old(findings) + Batch(records, rejected).stored
    {
      if !configured {
        return Failure(NotConfiguredError), [];
      }
      var created, failed;
      created, failed, requests := WriteChunks(records, rejected);
      r := Success(Counts(created, failed));
    }

    /** The loop of `createFindingsBatch`: chunk by chunk from the front. */
    method WriteChunks(records: seq<Fields>, rejected: set<nat>)
      returns (created: nat, failed: nat, ghost requests: seq<seq<Fields>>)
      modifies this
      ensures Counts(created, failed) == Batch(records, rejected).counts
      ensures requests == Batch(records, rejected).requests
      ensures audits == old(audits) && findings == old(findings) + Batch(records, rejected).stored
    {
      created, failed, requests := 0, 0, [];
      ghost var done := NoChunks;
      var i: nat, j: nat := 0, 0;
      while i < |records|
        invariant i <= |records|
        invariant Batch(records, rejected) == Then(done, BatchFrom(records[i..], rejected, j))
        invariant audits == old(audits) && findings == old(findings) + done.stored
        invariant done.counts == Counts(created, failed) && done.requests == requests
        decreases |records| - i
      {
        var end := if i + BatchSize <= |records| then i + BatchSize else |records|;
        var c, f, step := WriteChunk(records[i..end], j !in rejected);
        WriterAdvances(records, rejected, i, j, end, done, step);
        AppendAssociative(old(findings), done.stored, step.stored);
        done := Then(done, step);
        created, failed, requests := created + c, failed + f, requests + step.requests;
        i, j := end, j + 1;
      }
      assert done.stored + [] == done.stored && done.requests + [] == done.requests;
    }

    /** One chunk of `createFindingsBatch`: shield its records, and make one bulk
        create of the valid ones, unless there are none. */
    method WriteChunk(batch: seq<Fields>, accepted: bool) returns (created: nat, failed: nat, ghost run: BatchRun)
      requires |batch| <= BatchSize
      modifies this
      ensures run == ChunkRun(|batch|, ValidRecords(batch), accepted)
      ensures run.counts == Counts(created, failed)
      ensures audits == old(audits) && findings == old(findings) + run.stored
    {
      var valid := ShieldChunk(batch);
      run := ChunkRun(|batch|, valid, accepted);
      if |valid| == 0 {
        created, failed := 0, |batch|;
      } else if accepted {
        findings := findings + valid;
        created, failed := |valid|, |batch| - |valid|;
      } else {
        created, failed := 0, |batch|;
      }
    }
  }

  /** Shields every record of a chunk and keeps those with a field left. */
  method ShieldChunk(batch: seq<Fields>) returns (valid: seq<Fields>)
    ensures valid == ValidRecords(batch)
  {
    valid := [];
    var k := |batch|;
    while k > 0
      invariant 0 <= k <= |batch|
      invariant valid == ValidRecords(batch[k..])
    {
      k := k - 1;
      var safe, violations := ShieldFindingCreateFields(Some(batch[k]));
      assert batch[k..] == [batch[k]] + batch[k + 1..];
      if |safe.Keys| > 0 {
        valid := [safe] + valid;
      }
    }
    assert batch[0..] == batch;
  }

  /** Every input record is counted exactly once: created + failed is the
      number of records still to write. */
  lemma {:induction false} BatchCountsAddUp(rest: seq<Fields>, rejected: set<nat>, j: nat)
    ensures BatchFrom(rest, rejected, j).counts.created + BatchFrom(rest, rejected, j).counts.failed == |rest|
    decreases |rest|
  {
    if rest != [] {
      BatchCountsAddUp(rest[ChunkLength(rest)..], rejected, j + 1);
    }
  }

  /** A record as the shield leaves it for the store: some field left, and every
      field creatable and not read-only. */
  predicate Shielded(f: Fields)
  {
    f != map[] && f.Keys <= FindingsWriteAllowlist - ReadOnlyDenylist
  }

  predicate AllShielded(fs: seq<Fields>)
  {
    forall m :: 0 <= m < |fs| ==> Shielded(fs[m])
  }

  lemma AllShieldedConcat(a: seq<Fields>, b: seq<Fields>)
    requires AllShielded(a) && AllShielded(b)
    ensures AllShielded(a + b)
  {
    forall m | 0 <= m < |a + b|
      ensures Shielded((a + b)[m])
    {
      if m >= |a| {
        assert (a + b)[m] == b[m - |a|];
      }
    }
  }

  /** The records kept from a chunk are shielded and non-empty. */
  lemma {:induction false} ValidRecordsShielded(batch: seq<Fields>)
    ensures AllShielded(ValidRecords(batch))
  {
    if batch != [] {
      ValidRecordsShielded(batch[1..]);
      var safe := Permitted(batch[0], FindingsWriteAllowlist);
      AllShieldedConcat(if safe != map[] then [safe] else [], ValidRecords(batch[1..]));
    }
  }

  /** Records that are already shielded pass the shield unchanged and all of them
      are sent. */
  lemma {:induction false} ShieldedRecordsAllValid(batch: seq<Fields>)
    requires AllShielded(batch)
    ensures ValidRecords(batch) == batch
  {
    if batch != [] {
      assert Shielded(batch[0]);
      PermittedFixpoint(batch[0], FindingsWriteAllowlist);
      assert AllShielded(batch[1..]) by {
        forall m | 0 <= m < |batch[1..]| ensures Shielded(batch[1..][m]) {
          assert batch[1..][m] == batch[m + 1];
        }
      }
      ShieldedRecordsAllValid(batch[1..]);
    }
  }

  /** Shielding a chunk twice keeps the same records. */
  lemma ValidRecordsIdempotent(batch: seq<Fields>)
    ensures ValidRecords(ValidRecords(batch)) == ValidRecords(batch)
  {
    ValidRecordsShielded(batch);
    ShieldedRecordsAllValid(ValidRecords(batch));
  }

  /** Every bulk create the writer makes sends between one and ten records, all shielded. */
  predicate RequestsOk(reqs: seq<seq<Fields>>)
  {
    forall n :: 0 <= n < |reqs| ==> 1 <= |reqs[n]| <= BatchSize && AllShielded(reqs[n])
  }

  lemma RequestsOkConcat(a: seq<seq<Fields>>, b: seq<seq<Fields>>)
    requires RequestsOk(a) && RequestsOk(b)
    ensures RequestsOk(a + b)
  {
    forall n | 0 <= n < |a + b|
      ensures 1 <= |(a + b)[n]| <= BatchSize && AllShielded((a + b)[n])
    {
      if n >= |a| {
        assert (a + b)[n] == b[n - |a|];
      }
    }
  }

  lemma {:induction false} BatchRequestsBounded(rest: seq<Fields>, rejected: set<nat>, j: nat)
    ensures RequestsOk(BatchFrom(rest, rejected, j).requests)
    decreases |rest|
  {
    if rest != [] {
      var n := ChunkLength(rest);
      ValidRecordsShielded(rest[..n]);
      BatchRequestsBounded(rest[n..], rejected, j + 1);
      RequestsOkConcat(ChunkRun(n, ValidRecords(rest[..n]), j !in rejected).requests,
                       BatchFrom(rest[n..], rejected, j + 1).requests);
    }
  }

  /** The store only ever receives records that went through the shield and kept
      a field, and exactly as many as are counted created. */
  lemma {:induction false} BatchStoresShielded(rest: seq<Fields>, rejected: set<nat>, j: nat)
    ensures |BatchFrom(rest, rejected, j).stored| == BatchFrom(rest, rejected, j).counts.created
    ensures AllShielded(BatchFrom(rest, rejected, j).stored)
    decreases |rest|
  {
    if rest != [] {
      var n := ChunkLength(rest);
      ValidRecordsShielded(rest[..n]);
      BatchStoresShielded(rest[n..], rejected, j + 1);
      AllShieldedConcat(ChunkRun(n, ValidRecords(rest[..n]), j !in rejected).stored,
                        BatchFrom(rest[n..], rejected, j + 1).stored);
    }
  }

  /** When every record is already shielded, the store keeps only input records. */
  lemma {:induction false} BatchStoresInputs(rest: seq<Fields>, rejected: set<nat>, j: nat)
    requires AllShielded(rest)
    ensures forall m :: 0 <= m < |BatchFrom(rest, rejected, j).stored| ==> BatchFrom(rest, rejected, j).stored[m] in rest
    decreases |rest|
  {
    if rest != [] {
      var n := ChunkLength(rest);
      ShieldedPrefix(rest, n);
      ShieldedSuffix(rest, n);
      ShieldedRecordsAllValid(rest[..n]);
      BatchStoresInputs(rest[n..], rejected, j + 1);
      var first := ChunkRun(n, rest[..n], j !in rejected).stored;
      var later := BatchFrom(rest[n..], rejected, j + 1).stored;
      forall m | 0 <= m < |first + later|
        ensures (first + later)[m] in rest
      {
        if m < |first| {
          assert (first + later)[m] == rest[m];
        } else {
          assert (first + later)[m] == later[m - |first|];
        }
      }
    }
  }

  /** When every record is already shielded and no bulk create is rejected, every
      record is created, in order, and none fails. */
  lemma {:induction false} BatchAllAccepted(rest: seq<Fields>, j: nat)
    requires AllShielded(rest)
    ensures BatchFrom(rest, {}, j).stored == rest
    ensures BatchFrom(rest, {}, j).counts == Counts(|rest|, 0)
    decreases |rest|
  {
    if rest != [] {
      var n := ChunkLength(rest);
      ShieldedPrefix(rest, n);
      ShieldedSuffix(rest, n);
      ShieldedRecordsAllValid(rest[..n]);
      BatchAllAccepted(rest[n..], j + 1);
      assert rest[..n] + rest[n..] == rest;
    }
  }

  lemma ShieldedPrefix(fs: seq<Fields>, n: nat)
    requires AllShielded(fs) && n <= |fs|
    ensures AllShielded(fs[..n])
  {
    assert forall m :: 0 <= m < n ==> fs[..n][m] == fs[m];
  }

  lemma ShieldedSuffix(fs: seq<Fields>, n: nat)
    requires AllShielded(fs) && n <= |fs|
    ensures AllShielded(fs[n..])
  {
    assert forall m :: 0 <= m < |fs| - n ==> fs[n..][m] == fs[m + n];
  }

  /** Fifteen shielded records with the second chunk rejected: ten created, five
      failed, two bulk creates, and the store keeps the first ten. */
  lemma FifteenWithSecondChunkRejected(records: seq<Fields>, rejected: set<nat>)
    requires |records| == 15 && AllShielded(records)
    requires 0 !in rejected && 1 in rejected
    ensures Batch(records, rejected) == BatchRun(Counts(10, 5), [records[..10], records[10..]], records[..10])
  {
    var tail := records[10..];
    assert tail[5..] == [];
    assert tail[..5] == tail;
    ShieldedSuffix(records, 10);
    ShieldedRecordsAllValid(tail);
    assert BatchFrom(tail, rejected, 1) == BatchRun(Counts(0, 5), [tail], []);
    ShieldedPrefix(records, 10);
    ShieldedRecordsAllValid(records[..10]);
  }

  /** A chunk whose records all shield to nothing makes no call and fails whole. */
  lemma EmptyChunkFailsWhole(rest: seq<Fields>, rejected: set<nat>, j: nat)
    requires rest != [] && ValidRecords(rest[..ChunkLength(rest)]) == []
    ensures var run, later := BatchFrom(rest, rejected, j), BatchFrom(rest[ChunkLength(rest)..], rejected, j + 1);
            run.requests == later.requests && run.stored == later.stored
            && run.counts == Counts(later.counts.created, ChunkLength(rest) + later.counts.failed)
  {
  }

  /** The read never fails loudly: unconfigured, unreachable or missing means `None`. */
  lemma FetchNullOnFailure(configured: bool, audits: map<string, Fields>, recordId: string, reachable: bool)
    ensures Fetch(configured, audits, recordId, reachable).Some? <==> configured && reachable && recordId in audits
    ensures Fetch(configured, audits, recordId, reachable).Some? ==>
              Fetch(configured, audits, recordId, reachable).value.id == recordId
  {
  }

  /** A patch writes only shielded fields, changes only its own record, and an
      update that reports failure has written nothing. */
  lemma UpdateWritesShielded(configured: bool, audits: map<string, Fields>, recordId: string,
                             fields: Fields, accept: bool)
    ensures var (ok, after) := Update(configured, audits, recordId, fields, accept);
            && (!ok ==> after == audits)
            && (ok ==> recordId in audits && after.Keys == audits.Keys
                       && (forall k :: k in after[recordId] && k !in audits[recordId] ==> k in AuditsWriteAllowlist)
                       && (forall k :: k in after[recordId] && k !in AuditsWriteAllowlist ==> after[recordId][k] == audits[recordId][k])
                       && (forall id :: id in audits && id != recordId ==> after[id] == audits[id]))
    ensures Permitted(fields, AuditsWriteAllowlist) == map[] ==> !Update(configured, audits, recordId, fields, accept).0
  {
  }

  /** A create returns an id exactly when something survives the shield and the
      store accepts, and then appends the shielded record. */
  lemma CreateOneContract(configured: bool, findings: seq<Fields>, fields: Fields, outcome: Option<string>)
    ensures var (id, after) := CreateOne(configured, findings, fields, outcome);
            && (id.None? ==> after == findings)
            && (id.Some? ==> id == outcome && after == findings + [Permitted(fields, FindingsWriteAllowlist)])
            && (id.Some? <==> configured && outcome.Some? && Permitted(fields, FindingsWriteAllowlist) != map[])
  {
  }
}

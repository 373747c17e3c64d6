/** The write shield: the per-entity allowlist/denylist filter that every write to
    the record store passes through. */
module WriteShield {
  import opened Wrappers

  /** A field value on its way to the record store. `Undefined` stands for a key
      that is present (so `Object.entries` yields it) but holds `undefined`. */
  datatype Value = Undefined | Text(s: string) | Number(n: int) | Links(ids: seq<string>)

  /** A field map: field name to value. */
  type Fields = map<string, Value>

  /** Fields that are computed or linked by the store and never written. */
  const ReadOnlyDenylist: set<string> :=
    {"edge_score", "record_id", "client_id", "client_record_id_lookup",
     "client_record_id", "client_email (from client)", "Id"}

  /** The fields of an audit record that the pipeline may patch. */
  const AuditsWriteAllowlist: set<string> :=
    {"bot_b_status", "overall_status", "scan_completed_at", "last_error", "exec_summary",
     "risk_analysis", "remediation_overview", "findings_raw", "artifacts_raw",
     "analysis_metadata"}

  /** The fields of a finding record that the pipeline may create. */
  const FindingsWriteAllowlist: set<string> :=
    {"audit", "client", "title", "finding_title", "severity", "status", "description",
     "recommendation", "remediation_plan", "surface_area", "category",
     "edge_score_component", "ai_fix_code"}

  /** One blocked field, with the reason it was blocked. */
  datatype Violation = DeniedReadOnly(key: string) | DeniedNotAllowlisted(key: string)

  /** The verdict on one field name: `None` when it may be written, otherwise the
      violation it is reported as (the denylist is consulted first). */
  function Verdict(key: string, allowlist: set<string>): Option<Violation>
  {
    if key in ReadOnlyDenylist then Some(DeniedReadOnly(key))
    else if key !in allowlist then Some(DeniedNotAllowlisted(key))
    else None
  }

  /** What a shield lets through: exactly the fields of `input` whose names are
      in the allowlist and not in the denylist, each with its original value. */
  function Permitted(input: Fields, allowlist: set<string>): (safe: Fields)
    ensures safe.Keys == input.Keys * (allowlist - ReadOnlyDenylist)
    ensures forall k :: k in safe ==> safe[k] == input[k]
  {
    map k | k in input.Keys * (allowlist - ReadOnlyDenylist) :: input[k]
  }

  /** The loop both shields share: walk the entries of `input`, copy each field
      that is allowed into a fresh map and record a violation for every other. */
  method Shield(input: Fields, allowlist: set<string>) returns (safe: Fields, violations: seq<Violation>)
    ensures safe == Permitted(input, allowlist)
    ensures forall v :: v in violations ==> v.key in input && Verdict(v.key, allowlist) == Some(v)
    ensures forall k :: k in input && Verdict(k, allowlist).Some? ==> Verdict(k, allowlist).value in violations
    ensures forall i, j :: 0 <= i < j < |violations| ==> violations[i].key != violations[j].key
  {
    safe, violations := map[], [];
    var remaining := input.Keys;
    while remaining != {}
      invariant remaining <= input.Keys
      invariant safe == map k | k in input && k !in remaining && Verdict(k, allowlist).None? :: input[k]
      invariant forall v :: v in violations ==> v.key in input && v.key !in remaining && Verdict(v.key, allowlist) == Some(v)
      invariant forall k :: k in input && k !in remaining && Verdict(k, allowlist).Some? ==> Verdict(k, allowlist).value in violations
      invariant forall i, j :: 0 <= i < j < |violations| ==> violations[i].key != violations[j].key
      decreases remaining
    {
      var k :| k in remaining;
      var verdict := Verdict(k, allowlist);
      if verdict.Some? {
        violations := violations + [verdict.value];
      } else {
        safe := safe[k := input[k]];
      }
      remaining := remaining - {k};
    }
  }

  /** `shieldAuditPatchFields`: a missing input (`null`/`undefined`) shields to the
      empty map; otherwise only allowlisted, non-denied audit fields survive. */
  method ShieldAuditPatchFields(input: Option<Fields>) returns (safe: Fields, violations: seq<Violation>)
    ensures safe.Keys <= AuditsWriteAllowlist && safe.Keys !! ReadOnlyDenylist
    ensures input.None? ==> safe == map[] && violations == []
    ensures input.Some? ==> safe == Permitted(input.value, AuditsWriteAllowlist)
    ensures input.Some? ==> forall k :: k in input.value && k !in safe <==> DeniedReadOnly(k) in violations || DeniedNotAllowlisted(k) in violations
  {
    if input.None? {
      safe, violations := map[], [];
    } else {
      safe, violations := Shield(input.value, AuditsWriteAllowlist);
    }
  }

  /** `shieldFindingCreateFields`: the same filter with the findings allowlist. */
  method ShieldFindingCreateFields(input: Option<Fields>) returns (safe: Fields, violations: seq<Violation>)
    ensures safe.Keys <= FindingsWriteAllowlist && safe.Keys !! ReadOnlyDenylist
    ensures input.None? ==> safe == map[] && violations == []
    ensures input.Some? ==> safe == Permitted(input.value, FindingsWriteAllowlist)
    ensures input.Some? ==> forall k :: k in input.value && k !in safe <==> DeniedReadOnly(k) in violations || DeniedNotAllowlisted(k) in violations
  {
    if input.None? {
      safe, violations := map[], [];
    } else {
      safe, violations := Shield(input.value, FindingsWriteAllowlist);
    }
  }

  /** Shielding is idempotent: an already-shielded map passes unchanged. */
  lemma ShieldIdempotent(input: Fields, allowlist: set<string>)
    ensures Permitted(Permitted(input, allowlist), allowlist) == Permitted(input, allowlist)
  {
    var once := Permitted(input, allowlist);
    assert Permitted(once, allowlist).Keys == once.Keys;
  }

  /** A map that only uses permitted names is its own shielded form. */
  lemma PermittedFixpoint(input: Fields, allowlist: set<string>)
    requires input.Keys <= allowlist - ReadOnlyDenylist
    ensures Permitted(input, allowlist) == input
  {
    assert Permitted(input, allowlist).Keys == input.Keys;
  }

  /** Neither allowlist names a denied field, so for both shields the denylist
      only decides which reason a blocked field is reported under. */
  lemma AllowlistsAvoidDenylist()
    ensures AuditsWriteAllowlist !! ReadOnlyDenylist
    ensures FindingsWriteAllowlist !! ReadOnlyDenylist
  {
  }
}

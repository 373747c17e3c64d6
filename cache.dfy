/** The remediation cache: a normalising fingerprint of a finding and a keyed
    store of remediation texts whose entries expire after 24 hours. */
module Cache {
  import opened Wrappers
  import opened Strings

  /** Time to live of an entry, in milliseconds (24 hours). */
  const CacheTtl: int := 24 * 60 * 60 * 1000

  /** How many characters of the evidence snippet take part in the fingerprint. */
  const EvidencePrefix: nat := 200

  /** A cached remediation text and the time (milliseconds) it was stored. */
  datatype Entry = Entry(value: string, timestamp: int)

  /** The normalised tuple whose digest is the cache key. */
  datatype NormalizedKey = NormalizedKey(findingTitle: string, category: string, severity: string, evidenceSnippet: string)

  /** Lower-case, then trim. */
  function Fold(s: string): string
  {
    Trim(Lower(s))
  }

  /** The tuple `generateCacheKey` serialises: title, category and severity folded,
      and the evidence cut to its first 200 characters before it is folded (a
      missing snippet counts as the empty one). */
  function Normalize(findingTitle: string, category: string, severity: string, evidenceSnippet: Option<string>): NormalizedKey
  {
    NormalizedKey(Fold(findingTitle), Fold(category), Fold(severity),
                  Fold(Take(evidenceSnippet.GetOr(""), EvidencePrefix)))
  }

  /** `generateCacheKey`: the digest (`hash`, standing for SHA-256 over the JSON
      text) of the normalised tuple. */
  function GenerateCacheKey(hash: NormalizedKey -> string, findingTitle: string, category: string,
                            severity: string, evidenceSnippet: Option<string>): string
  {
    hash(Normalize(findingTitle, category, severity, evidenceSnippet))
  }

  /** An entry is expired once strictly more than the TTL has elapsed. */
  predicate Expired(e: Entry, now: int)
  {
    now - e.timestamp > CacheTtl
  }

  /** `getCachedRemediation` on a map of entries: its answer and the map after it. */
  function Lookup(entries: map<string, Entry>, key: string, now: int): (Option<string>, map<string, Entry>)
  {
    if key !in entries then (None, entries)
    else if Expired(entries[key], now) then (None, entries - {key})
    else (Some(entries[key].value), entries)
  }

  /** `setCachedRemediation` on a map of entries: upsert with a fresh timestamp. */
  function Store(entries: map<string, Entry>, key: string, value: string, now: int): map<string, Entry>
  {
    entries[key := Entry(value, now)]
  }

  /** `clearExpiredCache` on a map of entries: the live entries, untouched. */
  function Sweep(entries: map<string, Entry>, now: int): map<string, Entry>
  {
    map k | k in entries && !Expired(entries[k], now) :: entries[k]
  }

  /** The module-level `cache` Map, with the clock passed in as `now`. */
  class RemediationCache {
    var entries: map<string, Entry>

    constructor ()
      ensures entries == map[]
    {
      entries := map[];
    }

    /** `getCachedRemediation(key)`: lazy expiry. */
    method Get(key: string, now: int) returns (r: Option<string>)
      modifies this
      ensures (r, entries) == Lookup(old(entries), key, now)
    {
      if key !in entries {
        return None;
      }
      var entry := entries[key];
      if now - entry.timestamp > CacheTtl {
        entries := entries - {key};
        return None;
      }
      r := Some(entry.value);
    }

    /** `setCachedRemediation(key, value)`. */
    method Set(key: string, value: string, now: int)
      modifies this
      ensures entries == Store(old(entries), key, value, now)
    {
      entries := entries[key := Entry(value, now)];
    }

    /** `clearExpiredCache()`: walks a snapshot of the entries and deletes the
        expired ones. */
    method ClearExpired(now: int)
      modifies this
      ensures entries == Sweep(old(entries), now)
    {
      var snapshot := entries;
      var pending := snapshot.Keys;
      while pending != {}
        invariant pending <= snapshot.Keys
        invariant entries == map k | k in snapshot && (k in pending || !Expired(snapshot[k], now)) :: snapshot[k]
        decreases pending
      {
        var k :| k in pending;
        if now - snapshot[k].timestamp > CacheTtl {
          entries := entries - {k};
        }
        pending := pending - {k};
      }
    }
  }

  /** A key that was never set is a miss, and the lookup changes nothing. */
  lemma LookupNeverSet(entries: map<string, Entry>, key: string, now: int)
    requires key !in entries
    ensures Lookup(entries, key, now) == (None, entries)
  {
  }

  /** `set(k, v)` then `get(k)` at the same time returns `v`; the set refreshed the
      timestamp, kept every other key, and the get changes nothing more. */
  lemma StoreThenLookup(entries: map<string, Entry>, key: string, value: string, now: int)
    ensures Lookup(Store(entries, key, value, now), key, now) == (Some(value), Store(entries, key, value, now))
    ensures Store(entries, key, value, now)[key] == Entry(value, now)
    ensures forall k :: k != key ==> (k in Store(entries, key, value, now) <==> k in entries)
    ensures forall k :: k != key && k in entries ==> Store(entries, key, value, now)[k] == entries[k]
  {
  }

  /** The TTL boundary: an entry is still served at exactly 24 hours; one
      millisecond later the lookup misses and deletes that entry only. */
  lemma LookupAtTtlBoundary(entries: map<string, Entry>, key: string)
    requires key in entries
    ensures Lookup(entries, key, entries[key].timestamp + CacheTtl) == (Some(entries[key].value), entries)
    ensures Lookup(entries, key, entries[key].timestamp + CacheTtl + 1) == (None, entries - {key})
  {
  }

  /** The sweep removes exactly the expired entries and leaves the live ones with
      their values and timestamps. */
  lemma SweepExact(entries: map<string, Entry>, now: int)
    ensures forall k :: k in Sweep(entries, now) <==> k in entries && !Expired(entries[k], now)
    ensures forall k :: k in Sweep(entries, now) ==> Sweep(entries, now)[k] == entries[k]
  {
  }

  /** Sweeping is invisible to readers: every lookup answers as before. */
  lemma SweepUnobservable(entries: map<string, Entry>, key: string, now: int)
    ensures Lookup(Sweep(entries, now), key, now).0 == Lookup(entries, key, now).0
  {
  }

  /** `toLowerCase` is idempotent. */
  lemma LowerIdempotent(s: string)
    ensures Lower(Lower(s)) == Lower(s)
  {
  }

  /** Keys are case-insensitive in all four components. */
  lemma KeyIgnoresCase(hash: NormalizedKey -> string, t: string, c: string, s: string, e: string)
    ensures GenerateCacheKey(hash, Lower(t), Lower(c), Lower(s), Some(Lower(e)))
         == GenerateCacheKey(hash, t, c, s, Some(e))
  {
    LowerIdempotent(t);
    LowerIdempotent(c);
    LowerIdempotent(s);
    var p := Take(e, EvidencePrefix);
    assert Take(Lower(e), EvidencePrefix) == Lower(p);
    LowerIdempotent(p);
  }

  /** A missing evidence snippet fingerprints the same as an empty one. */
  lemma MissingEvidenceIsEmpty(hash: NormalizedKey -> string, t: string, c: string, s: string)
    ensures GenerateCacheKey(hash, t, c, s, None) == GenerateCacheKey(hash, t, c, s, Some(""))
  {
  }

  /** Evidence snippets that agree on their first 200 characters give the same key. */
  lemma KeyUsesEvidencePrefix(hash: NormalizedKey -> string, t: string, c: string, s: string, e1: string, e2: string)
    requires |e1| >= EvidencePrefix && |e2| >= EvidencePrefix
    requires e1[..EvidencePrefix] == e2[..EvidencePrefix]
    ensures GenerateCacheKey(hash, t, c, s, Some(e1)) == GenerateCacheKey(hash, t, c, s, Some(e2))
  {
    assert Take(e1, EvidencePrefix) == Take(e2, EvidencePrefix);
  }

  /** The evidence is cut before it is trimmed: 199 spaces followed by "ab" keep
      only the "a", where trimming first would have kept "ab". */
  lemma TruncateBeforeTrim()
    ensures Normalize("", "", "", Some(seq(199, _ => ' ') + "ab")).evidenceSnippet == "a"
    ensures Take(Fold(seq(199, _ => ' ') + "ab"), EvidencePrefix) == "ab"
  {
    CutThenFold(seq(199, _ => ' '));
    FoldThenCut(seq(199, _ => ' '));
  }

  /** Cutting 199 spaces and "ab" to 200 characters, then folding, keeps "a". */
  lemma CutThenFold(spaces: string)
    requires |spaces| == EvidencePrefix - 1
    requires forall i :: 0 <= i < |spaces| ==> spaces[i] == ' '
    ensures Fold(Take(spaces + "ab", EvidencePrefix)) == "a"
  {
    assert Take(spaces + "ab", EvidencePrefix) == spaces + "a";
    FoldOfSpacesThen(spaces, "a");
  }

  /** Folding first, then cutting, would have kept "ab". */
  lemma FoldThenCut(spaces: string)
    requires forall i :: 0 <= i < |spaces| ==> spaces[i] == ' '
    ensures Take(Fold(spaces + "ab"), EvidencePrefix) == "ab"
  {
    FoldOfSpacesThen(spaces, "ab");
  }

  /** Spaces followed by lower-case letters fold to those letters. */
  lemma FoldOfSpacesThen(spaces: string, t: string)
    requires forall i :: 0 <= i < |spaces| ==> spaces[i] == ' '
    requires t != [] && forall i :: 0 <= i < |t| ==> 'a' <= t[i] <= 'z'
    ensures Fold(spaces + t) == t
  {
    LowerKeepsNonLetters(spaces + t);
    TrimOfSpacesThen(spaces, t);
  }

  /** A text of spaces and lower-case letters is its own lower-case form. */
  lemma LowerKeepsNonLetters(s: string)
    requires forall i :: 0 <= i < |s| ==> !('A' <= s[i] <= 'Z')
    ensures Lower(s) == s
  {
  }

  /** White space followed by a text that starts and ends with other characters
      trims to that text. */
  lemma TrimOfSpacesThen(spaces: string, t: string)
    requires forall i :: 0 <= i < |spaces| ==> IsJsSpace(spaces[i])
    requires t != [] && !IsJsSpace(t[0]) && !IsJsSpace(t[|t| - 1])
    ensures Trim(spaces + t) == t
  {
    var s := spaces + t;
    var u := TrimStart(s);
    assert s[|spaces|] == t[0];
    assert forall i :: 0 <= i < |spaces| ==> IsJsSpace(s[i]);
    assert |s| - |u| == |spaces|;
    assert u == t;
    assert u[|u| - 1] == t[|t| - 1];
  }
}

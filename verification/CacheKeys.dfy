/** The Redis keys of the read caches (internal/lead/service/service.go), and why the names never collide. */
module CacheKeys {
  import opened Text

  const LEAD_PREFIX := "lead-scoring:lead:"
  const LIST_PREFIX := "lead-scoring:leads:list:"
  const SCORE_PREFIX := "lead-scoring:score:"

  datatype CacheKey =
    | LeadKey(id: string)
    | ListKey(limit: nat, offset: nat)
    | ScoreKey(leadId: string, contentHash: string)

  function Name(k: CacheKey): string {
    match k
    case LeadKey(id) => LEAD_PREFIX + id
    case ListKey(limit, offset) => LIST_PREFIX + Decimal(limit) + ":" + Decimal(offset)
    case ScoreKey(id, hash) => SCORE_PREFIX + id + ":" + hash
  }

  /** The glob the score invalidation scans for; a UUID holds no character a glob treats specially. */
  function ScorePattern(leadId: string): string {
    SCORE_PREFIX + leadId + ":"
  }

  /** Scores are cached under the identifiers of leads only. */
  predicate WellFormed(k: CacheKey) {
    k.ScoreKey? ==> IsUuid(k.leadId)
  }

  lemma PrefixOf(a: string, b: string, c: string)
    ensures (a + b + c)[..|a|] == a
    ensures (a + b)[..|a|] == a
    ensures (a + b)[|a|..] == b
    ensures a + (b + c) == a + b + c
  {
  }

  /** The kinds of keys differ within their prefixes. */
  lemma KindByName(k: CacheKey)
    ensures HasPrefix(Name(k), LIST_PREFIX) <==> k.ListKey?
    ensures HasPrefix(Name(k), LEAD_PREFIX) <==> k.LeadKey?
    ensures HasPrefix(Name(k), SCORE_PREFIX) <==> k.ScoreKey?
  {
    var name := Name(k);
    match k
    case LeadKey(id) =>
      PrefixOf(LEAD_PREFIX, id, "");
      assert name[17] == ':' && LIST_PREFIX[17] == 's' && name[13] == 'l' && SCORE_PREFIX[13] == 's';
    case ListKey(limit, offset) =>
      PrefixOf(LIST_PREFIX, Decimal(limit) + ":" + Decimal(offset), "");
      assert name == LIST_PREFIX + (Decimal(limit) + ":" + Decimal(offset));
      assert name[17] == 's' && LEAD_PREFIX[17] == ':' && name[13] == 'l' && SCORE_PREFIX[13] == 's';
    case ScoreKey(id, hash) =>
      PrefixOf(SCORE_PREFIX, id + ":" + hash, "");
      assert name == SCORE_PREFIX + (id + ":" + hash);
      assert name[13] == 's' && LEAD_PREFIX[13] == 'l' && LIST_PREFIX[13] == 'l';
  }

  function FirstColon(s: string): nat {
    if s == "" || s[0] == ':' then 0 else 1 + FirstColon(s[1..])
  }

  lemma {:induction false} FirstColonIs(a: string, b: string)
    requires forall i :: 0 <= i < |a| ==> a[i] != ':'
    ensures FirstColon(a + ":" + b) == |a|
  {
    if a == "" {
      assert a + ":" + b == ":" + b;
    } else {
      assert (a + ":" + b)[1..] == a[1..] + ":" + b;
      FirstColonIs(a[1..], b);
    }
  }

  /** Two texts joined by a colon can be told apart again when the first holds none. */
  lemma SplitAtColon(a: string, b: string, c: string, d: string)
    requires (forall x :: x in a ==> x != ':') && (forall x :: x in c ==> x != ':')
    requires a + ":" + b == c + ":" + d
    ensures a == c && b == d
  {
    assert forall i :: 0 <= i < |a| ==> a[i] in a;
    assert forall i :: 0 <= i < |c| ==> c[i] in c;
    FirstColonIs(a, b);
    FirstColonIs(c, d);
    var s := a + ":" + b;
    assert a == s[..|a|] && c == s[..|c|] && b == s[|a| + 1..] && d == s[|c| + 1..];
  }

  lemma ListNamesAreDistinct(limit: nat, offset: nat, limit': nat, offset': nat)
    requires Name(ListKey(limit, offset)) == Name(ListKey(limit', offset'))
    ensures limit == limit' && offset == offset'
  {
    var mine, theirs := Decimal(limit) + ":" + Decimal(offset), Decimal(limit') + ":" + Decimal(offset');
    assert LIST_PREFIX + mine == Name(ListKey(limit, offset)) == Name(ListKey(limit', offset')) == LIST_PREFIX + theirs;
    PrefixOf(LIST_PREFIX, mine, "");
    PrefixOf(LIST_PREFIX, theirs, "");
    SplitAtColon(Decimal(limit), Decimal(offset), Decimal(limit'), Decimal(offset'));
    DecimalIsInjective(limit, limit');
    DecimalIsInjective(offset, offset');
  }

  lemma ScoreNamesAreDistinct(id: string, hash: string, id': string, hash': string)
    requires IsUuid(id) && IsUuid(id') && Name(ScoreKey(id, hash)) == Name(ScoreKey(id', hash'))
    ensures id == id' && hash == hash'
  {
    var mine, theirs := id + ":" + hash, id' + ":" + hash';
    assert SCORE_PREFIX + mine == Name(ScoreKey(id, hash)) == Name(ScoreKey(id', hash')) == SCORE_PREFIX + theirs;
    PrefixOf(SCORE_PREFIX, mine, "");
    PrefixOf(SCORE_PREFIX, theirs, "");
    assert mine[..36] == id && theirs[..36] == id' && mine[37..] == hash && theirs[37..] == hash';
  }

  /** Distinct keys have distinct names, so the cache may be thought of as a map from keys. */
  lemma NamesAreDistinct(k: CacheKey, l: CacheKey)
    requires WellFormed(k) && WellFormed(l) && Name(k) == Name(l)
    ensures k == l
  {
    KindByName(k);
    KindByName(l);
    match k
    case LeadKey(id) =>
      PrefixOf(LEAD_PREFIX, id, "");
      PrefixOf(LEAD_PREFIX, l.id, "");
    case ListKey(limit, offset) => ListNamesAreDistinct(limit, offset, l.limit, l.offset);
    case ScoreKey(id, hash) => ScoreNamesAreDistinct(id, hash, l.leadId, l.contentHash);
  }

  lemma SamePrefixSameLead(id: string, hash: string, leadId: string)
    requires IsUuid(id) && IsUuid(leadId) && HasPrefix(SCORE_PREFIX + id + ":" + hash, SCORE_PREFIX + leadId + ":")
    ensures id == leadId
  {
    var name, pattern, n := SCORE_PREFIX + id + ":" + hash, SCORE_PREFIX + leadId + ":", |SCORE_PREFIX|;
    assert name[n..n + 36] == id && pattern[n..n + 36] == leadId;
    assert name[..|pattern|][n..n + 36] == name[n..n + 36];
  }

  /** The pattern of a lead's scores matches the scores of that lead and nothing else. */
  lemma ScorePatternMatches(k: CacheKey, leadId: string)
    requires WellFormed(k) && IsUuid(leadId)
    ensures HasPrefix(Name(k), ScorePattern(leadId)) <==> k.ScoreKey? && k.leadId == leadId
  {
    KindByName(k);
    var name, pattern := Name(k), ScorePattern(leadId);
    assert pattern == SCORE_PREFIX + (leadId + ":");
    PrefixOf(SCORE_PREFIX, leadId + ":", "");
    if HasPrefix(name, pattern) {
      assert name[..|SCORE_PREFIX|] == pattern[..|SCORE_PREFIX|];
      assert k.ScoreKey?;
      SamePrefixSameLead(k.leadId, k.contentHash, leadId);
    }
    if k.ScoreKey? && k.leadId == leadId {
      assert name == pattern + k.contentHash;
    }
  }
}

/**
 * The lead service with its read caches (internal/lead/service/service.go), one call at a time.
 *
 * The cache is a map over structured keys instead of their names. That is the same thing because distinct
 * keys have distinct names, which is CacheKeys.NamesAreDistinct; the patterns are matched on the names.
 * Every method is proved to answer, and to leave the tables, exactly as the service without a cache.
 */
module LeadService {
  import opened Options
  import opened Text
  import opened Leads
  import opened Scoring
  import opened LeadTables
  import opened CacheKeys

  datatype Cached = CachedLead(lead: Lead) | CachedList(leads: seq<Lead>) | CachedScore(score: LeadScore)

  type Cache = map<CacheKey, Cached>

  /** Rows carry their own canonical identifier. */
  ghost predicate WellKept(tables: Tables) {
    forall id :: id in tables.leads ==> tables.leads[id].id == id && IsUuid(id) && ToLower(id) == id
  }

  /** What the tables say about a key; only lists always say something. */
  function View(env: Env, tables: Tables, k: CacheKey): Option<Cached> {
    match k
    case LeadKey(id) => if id in tables.leads then Some(CachedLead(tables.leads[id])) else None
    case ListKey(limit, offset) => Some(CachedList(Page(tables, limit, offset)))
    case ScoreKey(id, hash) =>
      if id in tables.leads && hash == ContentHash(env, tables.leads[id]) && Latest(tables.scores, id).Some?
      then Some(CachedScore(Latest(tables.scores, id).value)) else None
  }

  /** Everything cached but the pages is what the tables say now. */
  ghost predicate PagesAside(env: Env, tables: Tables, cache: Cache) {
    forall k :: k in cache && !k.ListKey? ==> View(env, tables, k) == Some(cache[k])
  }

  /** Everything cached is what the tables say now. */
  ghost predicate Coherent(env: Env, tables: Tables, cache: Cache) {
    forall k :: k in cache ==> View(env, tables, k) == Some(cache[k])
  }

  // What each write to the tables does to the views.

  lemma {:induction false} PageIgnores(tables: Tables, tables': Tables, ids: seq<string>)
    requires tables'.leads == tables.leads
    ensures NewestFirst(tables', ids) == NewestFirst(tables, ids)
  {
    if ids != [] {
      PageIgnores(tables, tables', ids[..|ids| - 1]);
    }
  }

  /** New scores and embeddings leave leads and pages alone. */
  lemma OtherViewsKept(env: Env, tables: Tables, tables': Tables, k: CacheKey)
    requires tables'.leads == tables.leads && tables'.order == tables.order
    requires k.ScoreKey? ==> Latest(tables'.scores, k.leadId) == Latest(tables.scores, k.leadId)
    ensures View(env, tables', k) == View(env, tables, k)
  {
    PageIgnores(tables, tables', tables.order);
  }

  /** A status update changes that lead and the pages; its content, and so its score's key, stays. */
  lemma StatusKeepsViews(env: Env, tables: Tables, lead: Lead, status: string, now: nat, k: CacheKey)
    requires WellKept(tables) && lead.id in tables.leads && tables.leads[lead.id] == lead
    requires k != LeadKey(lead.id) && !k.ListKey?
    ensures View(env, SetStatus(tables, lead, status, now), k) == View(env, tables, k)
  {
    assert Parts(lead.(status := status, updatedAt := now)) == Parts(lead);
  }

  /** A new lead has no cached lead or score, and leaves the others alone. */
  lemma InsertKeepsViews(env: Env, tables: Tables, lead: Lead, k: CacheKey)
    requires lead.id !in tables.leads && !k.ListKey? && View(env, tables, k).Some?
    ensures View(env, InsertLead(tables, lead), k) == View(env, tables, k)
  {
  }

  /** An identifier holds no spaces to trim. */
  lemma UuidIsTrimmed(id: string)
    requires IsUuid(id)
    ensures TrimSpace(id) == id
  {
    assert !IsSpace(id[0]) && !IsSpace(id[35]);
  }

  /** One request after another. */
  lemma NextPlain(env: Env, tables: Tables, requests: seq<Request>, i: nat)
    requires i < |requests|
    ensures var (tables', answer) := Plain(env, tables, requests[i]);
      && PlainAnswers(env, tables, requests[i..]) == [answer] + PlainAnswers(env, tables', requests[i + 1..])
      && PlainTables(env, tables, requests[i..]) == PlainTables(env, tables', requests[i + 1..])
  {
    assert requests[i..][1..] == requests[i + 1..];
  }

  /** What a status update drops: every page, and the lead's scores. */
  predicate IsOutdated(k: CacheKey, leadId: string) {
    k.ListKey? || (k.ScoreKey? && k.leadId == leadId)
  }

  class Service {
    var tables: Tables
    var cache: Cache
    const env: Env
    // How the server spreads keys over buckets, and how many buckets one SCAN call covers: anything will do.
    const bucketOf: CacheKey -> nat
    const buckets: nat
    const stride: nat -> nat
    // Which keys lapse before each command: anything will do.
    const fate: nat -> set<CacheKey>
    var commands: nat
    // How many statements read leads, pages or scores on behalf of a cached call.
    ghost var selects: nat

    constructor (env: Env, bucketOf: CacheKey -> nat, buckets: nat, stride: nat -> nat, fate: nat -> set<CacheKey>)
      ensures tables == EMPTY && cache == map[] && Valid() && this.env == env && this.fate == fate
    {
      tables, cache, commands, selects := EMPTY, map[], 0, 0;
      this.env, this.bucketOf, this.buckets, this.stride, this.fate := env, bucketOf, buckets, stride, fate;
    }

    ghost predicate Valid()
      reads this
    {
      WellKept(tables) && Coherent(env, tables, cache)
    }

    /** What holds even between a write to the tables and the invalidation of the pages. */
    ghost predicate Kept()
      reads this
    {
      WellKept(tables) && PagesAside(env, tables, cache)
    }

    /** The key lapsed before one of the commands from number `from` up to number `to`. */
    ghost predicate Lapsed(k: CacheKey, from: nat, to: nat) {
      exists n :: from <= n < to && k in fate(n)
    }

    /** The next command finds the key. */
    ghost predicate Holds(k: CacheKey)
      reads this`cache, this`commands
    {
      k in cache && k !in fate(commands)
    }

    /** Time passes before the next command. */
    method Lapse()
      modifies this`cache, this`commands
      ensures cache == old(cache) - fate(old(commands)) && commands == old(commands) + 1
    {
      cache := cache - fate(commands);
      commands := commands + 1;
    }

    method CacheGet(key: CacheKey) returns (value: Option<Cached>)
      modifies this`cache, this`commands
      ensures cache == old(cache) - fate(old(commands)) && commands == old(commands) + 1
      ensures value == if key in cache then Some(cache[key]) else None
    {
      Lapse();
      value := if key in cache then Some(cache[key]) else None;
    }

    method CacheSet(key: CacheKey, value: Cached)
      modifies this`cache, this`commands
      ensures cache == (old(cache) - fate(old(commands)))[key := value] && commands == old(commands) + 1
    {
      Lapse();
      cache := cache[key := value];
    }

    /** SCAN cursor MATCH prefix*: the matching keys of some buckets, and where to go on, 0 at the end. */
    method Scan(cursor: nat, prefix: string) returns (keys: set<CacheKey>, next: nat)
      requires cursor == 0 || cursor < buckets
      modifies this`cache, this`commands
      ensures cache == old(cache) - fate(old(commands)) && commands == old(commands) + 1
      ensures next == 0 || cursor < next < buckets
      ensures keys == set k | k in cache && HasPrefix(Name(k), prefix) && cursor <= Bucket(k)
        && (next == 0 || Bucket(k) < next)
    {
      Lapse();
      var end := cursor + 1 + stride(cursor);
      next := if end < buckets then end else 0;
      keys := set k | k in cache && HasPrefix(Name(k), prefix) && cursor <= Bucket(k)
        && (next == 0 || Bucket(k) < next);
    }

    method Del(keys: set<CacheKey>)
      modifies this`cache, this`commands
      ensures cache == old(cache) - fate(old(commands)) - keys && commands == old(commands) + 1
    {
      Lapse();
      cache := cache - keys;
    }

    function Bucket(k: CacheKey): nat {
      if buckets == 0 then 0 else bucketOf(k) % buckets
    }

    /**
     * Both invalidations: scan and delete until the cursor is back at 0. The matching keys are gone then,
     * and of the others only those that lapsed.
     */
    method DeleteMatching(prefix: string)
      modifies this`cache, this`commands
      ensures commands >= old(commands)
      ensures forall k :: k in cache ==> k in old(cache) && cache[k] == old(cache)[k] && !HasPrefix(Name(k), prefix)
      ensures forall k :: k in old(cache) && !HasPrefix(Name(k), prefix) ==>
        k in cache || Lapsed(k, old(commands), commands)
    {
      ghost var before, from := cache, commands;
      var cursor := 0;
      while true
        invariant cursor == 0 || cursor < buckets
        invariant commands >= from
        invariant forall k :: k in cache ==>
          k in before && cache[k] == before[k] && !(HasPrefix(Name(k), prefix) && Bucket(k) < cursor)
        invariant forall k :: k in before && !HasPrefix(Name(k), prefix) ==> k in cache || Lapsed(k, from, commands)
        decreases buckets - cursor
      {
        var keys, next := Scan(cursor, prefix);
        ghost var seen := cache;
        if keys != {} {
          Del(keys);
        }
        assert forall k :: k in cache ==> k in seen && k !in keys;
        if next == 0 {
          return;
        }
        cursor := next;
      }
    }

    method GetLead(id: string) returns (lead: Option<Lead>)
      requires Kept()
      modifies this`cache, this`commands, this`selects
      ensures Kept() && (old(Valid()) ==> Valid())
      ensures lead == Find(tables, TrimSpace(id))
      ensures lead.Some? ==> lead.value.id in tables.leads && tables.leads[lead.value.id] == lead.value
      ensures lead.Some? ==> LeadKey(lead.value.id) in cache
      ensures IsUuid(TrimSpace(id)) ==> selects == old(selects) + if old(Holds(LeadKey(TrimSpace(id)))) then 0 else 1
      ensures commands >= old(commands)
      ensures forall k :: k in old(cache) ==> k in cache || Lapsed(k, old(commands), commands)
    {
      var trimmed := TrimSpace(id);
      if !IsUuid(trimmed) {
        return None;
      }
      var cached := CacheGet(LeadKey(trimmed));
      if cached.Some? && cached.value.CachedLead? {
        assert View(env, tables, LeadKey(trimmed)) == cached;
        return Some(cached.value.lead);
      }
      selects := selects + 1;
      if ToLower(trimmed) !in tables.leads {
        return None;
      }
      lead := Some(tables.leads[ToLower(trimmed)]);
      CacheSet(LeadKey(lead.value.id), CachedLead(lead.value));
    }

    method ListLeads(limit: int, offset: int) returns (leads: seq<Lead>)
      requires Valid()
      modifies this`cache, this`commands, this`selects
      ensures Valid() && leads == Page(tables, Limit(limit, 20, 100), if offset < 0 then 0 else offset)
      ensures var key := ListKey(Limit(limit, 20, 100), if offset < 0 then 0 else offset);
        key in cache && selects == old(selects) + if old(Holds(key)) then 0 else 1
    {
      var key := ListKey(Limit(limit, 20, 100), if offset < 0 then 0 else offset);
      var cached := CacheGet(key);
      if cached.Some? && cached.value.CachedList? {
        assert View(env, tables, key) == cached;
        return cached.value.leads;
      }
      selects := selects + 1;
      leads := Page(tables, key.limit, key.offset);
      CacheSet(key, CachedList(leads));
    }

    method Ensure(lead: Lead) returns (vector: Option<Vector>)
      requires Kept() && lead.id in tables.leads && tables.leads[lead.id] == lead
      modifies this`tables
      ensures Kept() && (old(Valid()) ==> Valid())
      ensures (tables, vector) == EnsureEmbedding(env, old(tables), lead)
      ensures tables.leads == old(tables.leads) && tables.scores == old(tables.scores)
        && tables.order == old(tables.order)
    {
      var key := (lead.id, env.model);
      var hash := ContentHash(env, lead);
      if key in tables.embeddings && tables.embeddings[key].contentHash == hash {
        return Some(tables.embeddings[key].vector);
      }
      vector := env.embed(Content(lead));
      if vector.Some? {
        ghost var before := tables;
        tables := tables.(embeddings := tables.embeddings[key := Embedding(hash, vector.value)]);
        forall k | k in cache
          ensures View(env, tables, k) == View(env, before, k)
        {
          OtherViewsKept(env, before, tables, k);
        }
      }
    }

    method UpsertEmbedding(id: string) returns (answer: Answer)
      requires Kept()
      modifies this`tables, this`cache, this`commands, this`selects
      ensures Kept() && (old(Valid()) ==> Valid()) && commands >= old(commands)
      ensures (tables, answer) == PlainEmbed(env, old(tables), TrimSpace(id))
      ensures tables.leads == old(tables.leads) && tables.scores == old(tables.scores)
        && tables.order == old(tables.order)
    {
      var lead := GetLead(id);
      if lead.None? {
        return LeadNotFound;
      }
      var vector := Ensure(lead.value);
      return if vector.Some? then Embedded(lead.value.id, ContentHash(env, lead.value)) else Answer.Failed;
    }

    method SimilarLeads(id: string, limit: int) returns (answer: Answer)
      requires Valid()
      modifies this`tables, this`cache, this`commands, this`selects
      ensures Valid() && (tables, answer) == PlainSimilar(env, old(tables), TrimSpace(id), limit)
      ensures tables.leads == old(tables.leads) && tables.scores == old(tables.scores)
        && tables.order == old(tables.order)
    {
      var lead := GetLead(id);
      if lead.None? {
        return LeadNotFound;
      }
      var vector := Ensure(lead.value);
      if vector.None? {
        return Answer.Failed;
      }
      return Neighbours(FindSimilar(env, tables, lead.value.id, vector.value, Limit(limit, 5, 20)));
    }

    method ScoreLead(id: string, now: nat) returns (answer: Answer)
      requires Valid()
      modifies this`tables, this`cache, this`commands, this`selects
      ensures Valid() && (tables, answer) == PlainScore(env, old(tables), TrimSpace(id), now)
      ensures answer.Scored? ==> ScoreKeyOf(answer.score.leadId) in cache
    {
      var lead := GetLead(id);
      if lead.None? {
        return LeadNotFound;
      }
      var found := SimilarLeads(id, 5);
      if !found.Neighbours? {
        return found;
      }
      var decision := env.score(lead.value, found.similar);
      if decision.Failed? || !PassesCheck(decision.probability) {
        return Answer.Failed;
      }
      var score := NewScore(lead.value, Decided(Round4(decision.probability), decision.reasoning, decision.model), now);
      ghost var before := tables;
      tables := tables.(scores := tables.scores + [score]);
      ghost var stale := cache;
      CacheSet(ScoreKey(lead.value.id, ContentHash(env, lead.value)), CachedScore(score));
      assert tables.scores[..|before.scores|] == before.scores;
      forall k | k in cache
        ensures View(env, tables, k) == Some(cache[k])
      {
        if k != ScoreKey(lead.value.id, ContentHash(env, lead.value)) {
          assert View(env, before, k) == Some(stale[k]);
          OtherViewsKept(env, before, tables, k);
        }
      }
      return Scored(score, found.similar);
    }

    /** The key that the latest score of a lead is cached under. */
    ghost function ScoreKeyOf(id: string): CacheKey
      reads this`tables
    {
      ScoreKey(id, if id in tables.leads then ContentHash(env, tables.leads[id]) else "")
    }

    method LatestLeadScore(id: string) returns (answer: Answer)
      requires Valid()
      modifies this`cache, this`commands, this`selects
      ensures Valid() && answer == PlainLatest(tables, TrimSpace(id))
      ensures answer.OneScore? ==>
        var key := ScoreKeyOf(ToLower(TrimSpace(id)));
        key in cache && (key in old(cache) && !Lapsed(key, old(commands), commands) ==>
          selects == old(selects) + if old(Holds(LeadKey(TrimSpace(id)))) then 0 else 1)
    {
      var lead := GetLead(id);
      if lead.None? {
        return LeadNotFound;
      }
      var key := ScoreKey(lead.value.id, ContentHash(env, lead.value));
      var cached := CacheGet(key);
      if cached.Some? && cached.value.CachedScore? {
        assert View(env, tables, key) == cached;
        return OneScore(cached.value.score);
      }
      selects := selects + 1;
      var score := Latest(tables.scores, lead.value.id);
      if score.None? {
        return ScoreNotFound;
      }
      CacheSet(key, CachedScore(score.value));
      return OneScore(score.value);
    }

    /** jobs.Enqueue of an embed job. */
    method Enqueue(id: string)
      requires Kept() && env.queue.Queue?
      modifies this`tables
      ensures Kept() && tables == Enqueued(old(tables), env.queue.accepts, id)
    {
      if env.queue.accepts(id) {
        ghost var before := tables;
        tables := tables.(embedJobs := tables.embedJobs + [id]);
        forall k | k in cache
          ensures View(env, tables, k) == View(env, before, k)
        {
          OtherViewsKept(env, before, tables, k);
        }
      }
    }

    /** A job for the new lead, or the work of the job at once. */
    method EmbedNew(id: string)
      requires Kept() && IsUuid(id)
      modifies this`tables, this`cache, this`commands, this`selects
      ensures Kept() && tables == AfterCreate(env, old(tables), id)
      ensures tables.leads == old(tables.leads) && commands >= old(commands)
    {
      match env.queue {
        case Queue(_) => Enqueue(id);
        case NoQueue =>
          UuidIsTrimmed(id);
          var embedded := UpsertEmbedding(id);
      }
    }

    method CreateLead(input: Input, newId: string, now: nat) returns (answer: Answer)
      requires Valid()
      modifies this`tables, this`cache, this`commands, this`selects
      ensures Valid() && (tables, answer) == PlainCreate(env, old(tables), input, newId, now)
      ensures answer.OneLead? ==> forall k :: k in cache ==> !k.ListKey?
      ensures answer.OneLead? ==> LeadKey(newId) in cache || Lapsed(LeadKey(newId), old(commands), commands)
    {
      var normalized := Normalize(input);
      if !Acceptable(normalized) {
        return InvalidLead;
      }
      if !IsFreshId(tables, newId) {
        return Answer.Failed;
      }
      var lead := NewRow(normalized, newId, now);
      ghost var before := tables;
      tables := InsertLead(tables, lead);
      forall k | k in cache && !k.ListKey?
        ensures View(env, tables, k) == Some(cache[k])
      {
        InsertKeepsViews(env, before, lead, k);
      }
      EmbedNew(newId);
      CacheSet(LeadKey(newId), CachedLead(lead));
      InvalidatePages();
      return OneLead(lead);
    }

    method InvalidatePages()
      requires Kept()
      modifies this`cache, this`commands
      ensures Valid() && commands >= old(commands)
      ensures forall k :: k in cache ==> k in old(cache) && !k.ListKey?
      ensures forall k :: k in old(cache) && !k.ListKey? ==> k in cache || Lapsed(k, old(commands), commands)
    {
      ghost var before := cache;
      DeleteMatching(LIST_PREFIX);
      forall k
        ensures HasPrefix(Name(k), LIST_PREFIX) <==> k.ListKey?
      {
        KindByName(k);
      }
    }

    method InvalidateScores(leadId: string)
      requires Valid() && leadId in tables.leads
      modifies this`cache, this`commands
      ensures Valid() && commands >= old(commands)
      ensures forall k :: k in cache ==> k in old(cache) && !(k.ScoreKey? && k.leadId == leadId)
      ensures forall k :: k in old(cache) && !(k.ScoreKey? && k.leadId == leadId) ==>
        k in cache || Lapsed(k, old(commands), commands)
    {
      ghost var before := cache;
      DeleteMatching(ScorePattern(leadId));
      forall k | k in before
        ensures HasPrefix(Name(k), ScorePattern(leadId)) <==> k.ScoreKey? && k.leadId == leadId
      {
        assert View(env, tables, k) == Some(before[k]);
        ScorePatternMatches(k, leadId);
      }
    }

    /** What a status update need not drop is still cached, or has lapsed. */
    ghost predicate OthersSurvive(before: Cache, after: Cache, leadId: string, from: nat, to: nat) {
      forall k :: k in before && !IsOutdated(k, leadId) ==> k in after || Lapsed(k, from, to)
    }

    lemma StoredSurvives(before: Cache, stored: Cache, after: Cache, lead: Lead, from: nat, to: nat)
      requires stored == (before - fate(from))[LeadKey(lead.id) := CachedLead(lead)]
      requires from < to && OthersSurvive(stored, after, lead.id, from + 1, to)
      ensures OthersSurvive(before, after, lead.id, from, to)
      ensures LeadKey(lead.id) in after || Lapsed(LeadKey(lead.id), from, to)
    {
      forall k | k in stored && !IsOutdated(k, lead.id)
        ensures k in after || Lapsed(k, from, to)
      {
        if k !in after {
          var n :| from + 1 <= n < to && k in fate(n);
        }
      }
      assert LeadKey(lead.id) in stored;
    }

    method DropOutdated(leadId: string)
      requires Kept() && leadId in tables.leads
      modifies this`cache, this`commands
      ensures Valid()
      ensures forall k :: k in cache ==> k in old(cache) && !IsOutdated(k, leadId)
      ensures commands >= old(commands) && OthersSurvive(old(cache), cache, leadId, old(commands), commands)
    {
      InvalidatePages();
      InvalidateScores(leadId);
    }

    /** The row is updated and cached. */
    method StoreStatus(found: Lead, status: string, now: nat) returns (lead: Lead)
      requires Valid() && found.id in tables.leads && tables.leads[found.id] == found
      modifies this`tables, this`cache, this`commands
      ensures Kept() && tables == SetStatus(old(tables), found, status, now)
      ensures lead == found.(status := status, updatedAt := now) && commands == old(commands) + 1
      ensures cache == (old(cache) - fate(old(commands)))[LeadKey(lead.id) := CachedLead(lead)]
    {
      lead := found.(status := status, updatedAt := now);
      ghost var before, stale := tables, cache;
      tables := SetStatus(tables, found, status, now);
      CacheSet(LeadKey(lead.id), CachedLead(lead));
      forall k | k in cache && !k.ListKey?
        ensures View(env, tables, k) == Some(cache[k])
      {
        if k != LeadKey(lead.id) {
          assert View(env, before, k) == Some(stale[k]);
          StatusKeepsViews(env, before, found, status, now, k);
        }
      }
    }

    method UpdateLeadStatus(id: string, status: string, now: nat) returns (answer: Answer)
      requires Valid()
      modifies this`tables, this`cache, this`commands, this`selects
      ensures Valid() && (tables, answer) == PlainUpdateStatus(old(tables), id, status, now)
      ensures answer.OneLead? ==> forall k :: k in cache ==> !IsOutdated(k, answer.lead.id)
      ensures answer.OneLead? ==>
        LeadKey(answer.lead.id) in cache || Lapsed(LeadKey(answer.lead.id), old(commands), commands)
      ensures answer.OneLead? ==> OthersSurvive(old(cache), cache, answer.lead.id, old(commands), commands)
    {
      var trimmed, wanted := TrimSpace(id), ToLower(TrimSpace(status));
      if !IsUuid(trimmed) {
        return LeadNotFound;
      }
      if wanted !in ALLOWED_STATUSES {
        return InvalidStatus;
      }
      var found := Find(tables, trimmed);
      if found.None? {
        return LeadNotFound;
      }
      var lead := StoreStatus(found.value, wanted, now);
      ghost var stored, from := cache, old(commands);
      DropOutdated(lead.id);
      StoredSurvives(old(cache), stored, cache, lead, from, commands);
      return OneLead(lead);
    }

    method Serve(r: Request) returns (answer: Answer)
      requires Valid()
      modifies this`tables, this`cache, this`commands, this`selects
      ensures Valid() && (tables, answer) == Plain(env, old(tables), r)
    {
      match r
      case Create(input, newId, now) => answer := CreateLead(input, newId, now);
      case UpdateStatus(id, status, now) => answer := UpdateLeadStatus(id, status, now);
      case List(limit, offset) =>
        var leads := ListLeads(limit, offset);
        answer := Leads(leads);
      case Get(id) =>
        var lead := GetLead(id);
        answer := if lead.Some? then OneLead(lead.value) else LeadNotFound;
      case Embed(id) => answer := UpsertEmbedding(id);
      case SearchSimilar(id, limit) => answer := SimilarLeads(id, limit);
      case Score(id, now) => answer := ScoreLead(id, now);
      case LatestScore(id) => answer := LatestLeadScore(id);
    }

    /**
     * Sequential transparency: over any sequence of calls, with any keys lapsing before any cache command,
     * every answer is the one the service without a cache gives, and so are the tables at the end.
     */
    method ServeAll(requests: seq<Request>) returns (answers: seq<Answer>)
      requires Valid()
      modifies this`tables, this`cache, this`commands, this`selects
      ensures Valid()
      ensures answers == PlainAnswers(env, old(tables), requests)
      ensures tables == PlainTables(env, old(tables), requests)
    {
      answers := [];
      for i := 0 to |requests|
        invariant Valid()
        invariant PlainAnswers(env, old(tables), requests) == answers + PlainAnswers(env, tables, requests[i..])
        invariant PlainTables(env, old(tables), requests) == PlainTables(env, tables, requests[i..])
      {
        NextPlain(env, tables, requests, i);
        var answer := Serve(requests[i]);
        answers := answers + [answer];
      }
    }
  }
}

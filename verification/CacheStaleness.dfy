/**
 * The read caches under concurrency (internal/lead/service/service.go): any number of calls interleave,
 * each cache command and each SQL statement being one atomic step, on a common clock in milliseconds.
 *
 * A call looks one key up and, on a miss, reads the tables and stores what it read; or it writes a row and
 * stores that. LatestLeadScore is two calls, one for the lead and one for the score under the key made from it.
 */
module CacheStaleness {
  import opened Options
  import opened Text
  import opened Leads
  import opened LeadTables
  import opened CacheKeys
  import opened LeadService
  import opened EmbeddingMemo

  const CACHE_TTL: nat := 60_000
  const SCORE_CACHE_TTL: nat := 300_000

  function Ttl(k: CacheKey): (ttl: nat)
    ensures ttl == if k.LeadKey? || k.ListKey? then 60_000 else 300_000
  {
    if k.ScoreKey? then SCORE_CACHE_TTL else CACHE_TTL
  }

  /** What the SQL statement behind a key returns. */
  function Fetch(tables: Tables, k: CacheKey): Option<Cached> {
    match k
    case LeadKey(id) => if id in tables.leads then Some(CachedLead(tables.leads[id])) else None
    case ListKey(limit, offset) => Some(CachedList(Page(tables, limit, offset)))
    case ScoreKey(id, _) =>
      var latest := Latest(tables.scores, id);
      if latest.Some? then Some(CachedScore(latest.value)) else None
  }

  /** The key a row is stored under: Postgres finds a lead by its identifier in either case, and keeps the lower one. */
  function StoredKey(k: CacheKey): CacheKey {
    match k
    case LeadKey(id) => LeadKey(ToLower(id))
    case _ => k
  }

  /** The tables after a write, and the moment of it. */
  datatype Version = Version(at: nat, tables: Tables)

  /** A value a statement returned, with the version and the moment it ran at. */
  datatype Reading = Reading(value: Option<Cached>, version: nat, readAt: nat)

  datatype Entry = Entry(reading: Reading, expiresAt: nat)

  datatype Call =
    | Ready
    | Missed(key: CacheKey)                                     // the key asked for
    | Storing(key: CacheKey, reading: Reading, replies: bool)   // its statement has run, its cache Set is next
    | Done

  datatype Reply = Reply(key: CacheKey, reading: Reading, at: nat)

  datatype State = State(now: nat, versions: seq<Version>, cache: map<CacheKey, Entry>, calls: seq<Call>,
    replies: seq<Reply>)

  datatype Action =
    | Tick(elapsed: nat)
    | Start
    | CacheGet(call: nat, key: CacheKey)
    | DbRead(call: nat)
    | CreateRow(call: nat, lead: Lead)
    | UpdateRow(call: nat, id: string, status: string)
    | InsertScore(call: nat, score: LeadScore, seenIn: nat)    // the lead scored was seen in that version
    | UpsertRecord(id: string, seenIn: nat, vector: Vector)    // likewise
    | CacheSet(call: nat, reachable: bool)
    | Delete(keys: set<CacheKey>)                              // an invalidation, whatever its scan found

  const START := State(0, [Version(0, EMPTY)], map[], [], [])

  function Tables(s: State): Tables
    requires s.versions != []
  {
    s.versions[|s.versions| - 1].tables
  }

  predicate IsReady(s: State, c: nat) {
    c < |s.calls| && s.calls[c].Ready?
  }

  function Move(s: State, c: nat, call: Call): State
    requires c < |s.calls|
  {
    s.(calls := s.calls[c := call])
  }

  function Write(s: State, tables: Tables): State {
    s.(versions := s.versions + [Version(s.now, tables)])
  }

  /** A statement returned the row it wrote, and the call is about to cache it. */
  function WriteAndStore(s: State, c: nat, tables: Tables, key: CacheKey, row: Cached): State
    requires c < |s.calls|
  {
    Move(Write(s, tables), c, Storing(key, Reading(Some(row), |s.versions|, s.now), false))
  }

  function StepGet(s: State, c: nat, key: CacheKey): State
    requires IsReady(s, c)
  {
    if key in s.cache && s.now < s.cache[key].expiresAt
    then Move(s, c, Done).(replies := s.replies + [Reply(key, s.cache[key].reading, s.now)])
    else Move(s, c, Missed(key))
  }

  function StepRead(s: State, c: nat): State
    requires c < |s.calls| && s.calls[c].Missed? && s.versions != []
  {
    var key := StoredKey(s.calls[c].key);
    var reading := Reading(Fetch(Tables(s), key), |s.versions| - 1, s.now);
    if reading.value.Some? then Move(s, c, Storing(key, reading, true))
    else Move(s, c, Done).(replies := s.replies + [Reply(key, reading, s.now)])
  }

  function StepSet(s: State, c: nat, reachable: bool): State
    requires c < |s.calls| && s.calls[c].Storing?
  {
    var Storing(key, reading, replies) := s.calls[c];
    Move(s, c, Done).(
      cache := if reachable then s.cache[key := Entry(reading, s.now + Ttl(key))] else s.cache,
      replies := if replies then s.replies + [Reply(key, reading, s.now)] else s.replies)
  }

  function StepCreate(s: State, c: nat, lead: Lead): State
    requires IsReady(s, c) && s.versions != [] && IsFreshId(Tables(s), lead.id)
  {
    WriteAndStore(s, c, InsertLead(Tables(s), lead), LeadKey(lead.id), CachedLead(lead))
  }

  function StepUpdate(s: State, c: nat, id: string, status: string): State
    requires IsReady(s, c) && s.versions != [] && id in Tables(s).leads
  {
    var lead := Tables(s).leads[id];
    WriteAndStore(s, c, SetStatus(Tables(s), lead, status, s.now), LeadKey(id),
      CachedLead(lead.(status := status, updatedAt := s.now)))
  }

  predicate Saw(s: State, seenIn: nat, id: string) {
    seenIn < |s.versions| && id in s.versions[seenIn].tables.leads
  }

  function Scored(tables: Tables, score: LeadScore): Tables {
    tables.(scores := tables.scores + [score])
  }

  function StepScore(env: Env, s: State, c: nat, score: LeadScore, seenIn: nat): State
    requires IsReady(s, c) && s.versions != [] && Saw(s, seenIn, score.leadId)
  {
    WriteAndStore(s, c, Scored(Tables(s), score),
      ScoreKey(score.leadId, ContentHash(env, s.versions[seenIn].tables.leads[score.leadId])), CachedScore(score))
  }

  predicate Embeds(env: Env, s: State, id: string, seenIn: nat, vector: Vector) {
    Saw(s, seenIn, id) && env.embed(Content(s.versions[seenIn].tables.leads[id])) == Some(vector)
  }

  function Upserted(env: Env, tables: Tables, seen: Lead, vector: Vector): Tables {
    tables.(embeddings := tables.embeddings[(seen.id, env.model) := Embedding(ContentHash(env, seen), vector)])
  }

  /** A step that cannot be taken leaves everything as it is. */
  function Step(env: Env, s: State, a: Action): State {
    if s.versions == [] then s
    else match a
      case Tick(elapsed) => s.(now := s.now + elapsed)
      case Start => s.(calls := s.calls + [Ready])
      case CacheGet(c, key) => if IsReady(s, c) then StepGet(s, c, key) else s
      case DbRead(c) => if c < |s.calls| && s.calls[c].Missed? then StepRead(s, c) else s
      case CreateRow(c, lead) =>
        if IsReady(s, c) && IsFreshId(Tables(s), lead.id) then StepCreate(s, c, lead) else s
      case UpdateRow(c, id, status) =>
        if IsReady(s, c) && id in Tables(s).leads then StepUpdate(s, c, id, status) else s
      case InsertScore(c, score, seenIn) =>
        if IsReady(s, c) && Saw(s, seenIn, score.leadId) then StepScore(env, s, c, score, seenIn) else s
      case UpsertRecord(id, seenIn, vector) =>
        if Embeds(env, s, id, seenIn, vector)
        then Write(s, Upserted(env, Tables(s), s.versions[seenIn].tables.leads[id], vector)) else s
      case CacheSet(c, reachable) => if c < |s.calls| && s.calls[c].Storing? then StepSet(s, c, reachable) else s
      case Delete(keys) => s.(cache := s.cache - keys)
  }

  function Exec(env: Env, s: State, actions: seq<Action>): State
    decreases |actions|
  {
    if actions == [] then s else Exec(env, Step(env, s, actions[0]), actions[1..])
  }

  /** Each cache Set follows its statement within `delay`. */
  predicate TimelyStep(s: State, a: Action, delay: nat) {
    a.CacheSet? && a.call < |s.calls| && s.calls[a.call].Storing? ==> s.now <= s.calls[a.call].reading.readAt + delay
  }

  predicate Timely(env: Env, s: State, actions: seq<Action>, delay: nat)
    decreases |actions|
  {
    actions == [] || (TimelyStep(s, actions[0], delay) && Timely(env, Step(env, s, actions[0]), actions[1..], delay))
  }

  // ---------------------------------------------------------------------------------------------
  // The invariant
  // ---------------------------------------------------------------------------------------------

  /** Version `v` was what the tables held at the moment `t`. */
  predicate CurrentAt(versions: seq<Version>, v: nat, t: nat) {
    v < |versions| && versions[v].at <= t && (v + 1 < |versions| ==> t <= versions[v + 1].at)
  }

  predicate IsTrue(versions: seq<Version>, key: CacheKey, r: Reading) {
    CurrentAt(versions, r.version, r.readAt) && Fetch(versions[r.version].tables, key) == r.value
  }

  ghost predicate VersionsInOrder(s: State) {
    && s.versions != []
    && (forall v :: 0 <= v < |s.versions| ==> s.versions[v].at <= s.now && WellKept(s.versions[v].tables))
  }

  /** Leads stay, with the content they were created with. */
  ghost predicate ContentNeverChanges(versions: seq<Version>) {
    forall v, w :: 0 <= v <= w < |versions| ==> ContentKept(versions[v].tables, versions[w].tables)
  }

  ghost predicate MemoAlwaysHolds(env: Env, versions: seq<Version>) {
    forall v :: 0 <= v < |versions| ==> MemoHolds(env, versions[v].tables)
  }

  ghost predicate CacheIsTrue(s: State, delay: nat) {
    forall k :: k in s.cache ==>
      var r := s.cache[k].reading;
      IsTrue(s.versions, k, r) && r.readAt <= s.now && s.cache[k].expiresAt <= r.readAt + delay + Ttl(k)
  }

  ghost predicate CallsAreTrue(s: State) {
    forall c :: 0 <= c < |s.calls| && s.calls[c].Storing? ==>
      IsTrue(s.versions, s.calls[c].key, s.calls[c].reading) && s.calls[c].reading.readAt <= s.now
  }

  ghost predicate RepliesAreTrue(s: State, delay: nat) {
    forall i :: 0 <= i < |s.replies| ==>
      var r := s.replies[i];
      && IsTrue(s.versions, r.key, r.reading)
      && r.reading.readAt <= r.at < r.reading.readAt + delay + Ttl(r.key) && r.at <= s.now
  }

  /** What the tables went through. */
  ghost predicate HistoryInv(env: Env, s: State) {
    VersionsInOrder(s) && ContentNeverChanges(s.versions) && MemoAlwaysHolds(env, s.versions)
  }

  /** What was read is what they held. */
  ghost predicate ReadingInv(s: State, delay: nat) {
    s.versions != [] && CacheIsTrue(s, delay) && CallsAreTrue(s) && RepliesAreTrue(s, delay)
  }

  ghost predicate Inv(env: Env, s: State, delay: nat) {
    HistoryInv(env, s) && ReadingInv(s, delay)
  }

  lemma WriteKeepsHistory(env: Env, s: State, tables: Tables)
    requires HistoryInv(env, s) && WellKept(tables) && MemoHolds(env, tables) && ContentKept(Tables(s), tables)
    ensures HistoryInv(env, Write(s, tables))
  {
    var next := Write(s, tables);
    forall v, w | 0 <= v <= w < |next.versions|
      ensures ContentKept(next.versions[v].tables, next.versions[w].tables)
    {
      if w == |s.versions| && v < w {
        assert ContentKept(s.versions[v].tables, Tables(s));
      }
    }
  }

  /** A new version takes nothing from what was read before it. */
  lemma NewVersionKeepsTruth(versions: seq<Version>, key: CacheKey, r: Reading, next: Version)
    requires IsTrue(versions, key, r) && r.readAt <= next.at
    ensures IsTrue(versions + [next], key, r)
  {
  }

  lemma WriteKeepsReadings(s: State, tables: Tables, delay: nat)
    requires ReadingInv(s, delay)
    ensures ReadingInv(Write(s, tables), delay)
  {
    var next, newest := Write(s, tables), Version(s.now, tables);
    forall k | k in s.cache
      ensures IsTrue(next.versions, k, s.cache[k].reading)
    {
      NewVersionKeepsTruth(s.versions, k, s.cache[k].reading, newest);
    }
    forall c | 0 <= c < |s.calls| && s.calls[c].Storing?
      ensures IsTrue(next.versions, s.calls[c].key, s.calls[c].reading)
    {
      NewVersionKeepsTruth(s.versions, s.calls[c].key, s.calls[c].reading, newest);
    }
    forall i | 0 <= i < |s.replies|
      ensures IsTrue(next.versions, s.replies[i].key, s.replies[i].reading)
    {
      NewVersionKeepsTruth(s.versions, s.replies[i].key, s.replies[i].reading, newest);
    }
  }

  lemma WriteAndStoreKeepsReadings(s: State, c: nat, tables: Tables, key: CacheKey, row: Cached, delay: nat)
    requires ReadingInv(s, delay) && c < |s.calls| && Fetch(tables, key) == Some(row)
    ensures ReadingInv(WriteAndStore(s, c, tables, key, row), delay)
  {
    WriteKeepsReadings(s, tables, delay);
    assert IsTrue(Write(s, tables).versions, key, Reading(Some(row), |s.versions|, s.now));
  }

  lemma GetKeepsReadings(s: State, c: nat, key: CacheKey, delay: nat)
    requires ReadingInv(s, delay) && IsReady(s, c)
    ensures ReadingInv(StepGet(s, c, key), delay)
  {
  }

  lemma ReadKeepsReadings(s: State, c: nat, delay: nat)
    requires ReadingInv(s, delay) && VersionsInOrder(s) && c < |s.calls| && s.calls[c].Missed?
    ensures ReadingInv(StepRead(s, c), delay)
  {
    var key := StoredKey(s.calls[c].key);
    assert IsTrue(s.versions, key, Reading(Fetch(Tables(s), key), |s.versions| - 1, s.now));
  }

  lemma SetKeepsReadings(s: State, c: nat, reachable: bool, delay: nat)
    requires ReadingInv(s, delay) && c < |s.calls| && s.calls[c].Storing? && s.now <= s.calls[c].reading.readAt + delay
    ensures ReadingInv(StepSet(s, c, reachable), delay)
  {
  }

  lemma CreateKeepsInv(env: Env, s: State, c: nat, lead: Lead, delay: nat)
    requires Inv(env, s, delay) && IsReady(s, c) && IsFreshId(Tables(s), lead.id)
    ensures Inv(env, StepCreate(s, c, lead), delay)
  {
    var tables := InsertLead(Tables(s), lead);
    InsertKeepsMemo(env, Tables(s), lead);
    WriteKeepsHistory(env, s, tables);
    WriteAndStoreKeepsReadings(s, c, tables, LeadKey(lead.id), CachedLead(lead), delay);
  }

  lemma UpdateKeepsInv(env: Env, s: State, c: nat, id: string, status: string, delay: nat)
    requires Inv(env, s, delay) && IsReady(s, c) && id in Tables(s).leads
    ensures Inv(env, StepUpdate(s, c, id, status), delay)
  {
    var lead := Tables(s).leads[id];
    var tables := SetStatus(Tables(s), lead, status, s.now);
    StatusKeepsMemo(env, Tables(s), id, status, s.now);
    WriteKeepsHistory(env, s, tables);
    WriteAndStoreKeepsReadings(s, c, tables, LeadKey(id), CachedLead(lead.(status := status, updatedAt := s.now)),
      delay);
  }

  lemma ScoredKeepsTables(env: Env, tables: Tables, score: LeadScore, contentHash: string)
    requires WellKept(tables) && MemoHolds(env, tables)
    ensures WellKept(Scored(tables, score)) && MemoHolds(env, Scored(tables, score))
      && ContentKept(tables, Scored(tables, score))
    ensures Fetch(Scored(tables, score), ScoreKey(score.leadId, contentHash)) == Some(CachedScore(score))
  {
  }

  lemma ScoreKeepsInv(env: Env, s: State, c: nat, score: LeadScore, seenIn: nat, delay: nat)
    requires Inv(env, s, delay) && IsReady(s, c) && Saw(s, seenIn, score.leadId)
    ensures Inv(env, StepScore(env, s, c, score, seenIn), delay)
  {
    var hash := ContentHash(env, s.versions[seenIn].tables.leads[score.leadId]);
    ScoredKeepsTables(env, Tables(s), score, hash);
    WriteKeepsHistory(env, s, Scored(Tables(s), score));
    WriteAndStoreKeepsReadings(s, c, Scored(Tables(s), score), ScoreKey(score.leadId, hash), CachedScore(score), delay);
  }

  /** The record describes a lead as it was seen earlier, and its content is still the same. */
  lemma UpsertKeepsTables(env: Env, tables: Tables, seen: Lead, vector: Vector)
    requires WellKept(tables) && MemoHolds(env, tables)
    requires seen.id in tables.leads && Content(tables.leads[seen.id]) == Content(seen)
      && env.embed(Content(seen)) == Some(vector)
    ensures var tables' := Upserted(env, tables, seen, vector);
      WellKept(tables') && MemoHolds(env, tables') && ContentKept(tables, tables')
  {
  }

  lemma UpsertKeepsInv(env: Env, s: State, id: string, seenIn: nat, vector: Vector, delay: nat)
    requires Inv(env, s, delay) && Embeds(env, s, id, seenIn, vector)
    ensures Inv(env, Write(s, Upserted(env, Tables(s), s.versions[seenIn].tables.leads[id], vector)), delay)
  {
    var seen := s.versions[seenIn].tables.leads[id];
    assert ContentKept(s.versions[seenIn].tables, Tables(s));
    UpsertKeepsTables(env, Tables(s), seen, vector);
    WriteKeepsHistory(env, s, Upserted(env, Tables(s), seen, vector));
    WriteKeepsReadings(s, Upserted(env, Tables(s), seen, vector), delay);
  }

  /** Only writes to the tables make history. */
  lemma SameVersionsKeepInv(env: Env, s: State, next: State, delay: nat)
    requires HistoryInv(env, s) && next.versions == s.versions && s.now <= next.now && ReadingInv(next, delay)
    ensures Inv(env, next, delay)
  {
  }

  lemma CacheStepKeepsInv(env: Env, s: State, a: Action, delay: nat)
    requires Inv(env, s, delay) && TimelyStep(s, a, delay) && (a.CacheGet? || a.DbRead? || a.CacheSet?)
    ensures Inv(env, Step(env, s, a), delay)
  {
    match a
    case CacheGet(c, key) =>
      if IsReady(s, c) {
        GetKeepsReadings(s, c, key, delay);
        SameVersionsKeepInv(env, s, StepGet(s, c, key), delay);
      }
    case DbRead(c) =>
      if c < |s.calls| && s.calls[c].Missed? {
        ReadKeepsReadings(s, c, delay);
        SameVersionsKeepInv(env, s, StepRead(s, c), delay);
      }
    case CacheSet(c, reachable) =>
      if c < |s.calls| && s.calls[c].Storing? {
        SetKeepsReadings(s, c, reachable, delay);
        SameVersionsKeepInv(env, s, StepSet(s, c, reachable), delay);
      }
  }

  lemma QuietStepKeepsInv(env: Env, s: State, a: Action, delay: nat)
    requires Inv(env, s, delay) && (a.Tick? || a.Start? || a.Delete?)
    ensures Inv(env, Step(env, s, a), delay)
  {
    SameVersionsKeepInv(env, s, Step(env, s, a), delay);
  }

  lemma CreateRowKeepsInv(env: Env, s: State, c: nat, lead: Lead, delay: nat)
    requires Inv(env, s, delay)
    ensures Inv(env, Step(env, s, CreateRow(c, lead)), delay)
  {
    if IsReady(s, c) && IsFreshId(Tables(s), lead.id) {
      CreateKeepsInv(env, s, c, lead, delay);
    }
  }

  lemma UpdateRowKeepsInv(env: Env, s: State, c: nat, id: string, status: string, delay: nat)
    requires Inv(env, s, delay)
    ensures Inv(env, Step(env, s, UpdateRow(c, id, status)), delay)
  {
    if IsReady(s, c) && id in Tables(s).leads {
      UpdateKeepsInv(env, s, c, id, status, delay);
    }
  }

  lemma InsertScoreKeepsInv(env: Env, s: State, c: nat, score: LeadScore, seenIn: nat, delay: nat)
    requires Inv(env, s, delay)
    ensures Inv(env, Step(env, s, InsertScore(c, score, seenIn)), delay)
  {
    if IsReady(s, c) && Saw(s, seenIn, score.leadId) {
      ScoreKeepsInv(env, s, c, score, seenIn, delay);
    }
  }

  lemma UpsertRecordKeepsInv(env: Env, s: State, id: string, seenIn: nat, vector: Vector, delay: nat)
    requires Inv(env, s, delay)
    ensures Inv(env, Step(env, s, UpsertRecord(id, seenIn, vector)), delay)
  {
    if Embeds(env, s, id, seenIn, vector) {
      UpsertKeepsInv(env, s, id, seenIn, vector, delay);
    }
  }

  lemma StepKeepsInv(env: Env, s: State, a: Action, delay: nat)
    requires Inv(env, s, delay) && TimelyStep(s, a, delay)
    ensures Inv(env, Step(env, s, a), delay)
  {
    match a
    case CreateRow(c, lead) => CreateRowKeepsInv(env, s, c, lead, delay);
    case UpdateRow(c, id, status) => UpdateRowKeepsInv(env, s, c, id, status, delay);
    case InsertScore(c, score, seenIn) => InsertScoreKeepsInv(env, s, c, score, seenIn, delay);
    case UpsertRecord(id, seenIn, vector) => UpsertRecordKeepsInv(env, s, id, seenIn, vector, delay);
    case _ =>
      if a.CacheGet? || a.DbRead? || a.CacheSet? {
        CacheStepKeepsInv(env, s, a, delay);
      } else {
        QuietStepKeepsInv(env, s, a, delay);
      }
  }

  lemma {:induction false} ExecKeepsInv(env: Env, s: State, actions: seq<Action>, delay: nat)
    requires Inv(env, s, delay) && Timely(env, s, actions, delay)
    ensures Inv(env, Exec(env, s, actions), delay)
    decreases |actions|
  {
    if actions != [] {
      StepKeepsInv(env, s, actions[0], delay);
      ExecKeepsInv(env, Step(env, s, actions[0]), actions[1..], delay);
    }
  }

  // ---------------------------------------------------------------------------------------------
  // Main results
  // ---------------------------------------------------------------------------------------------

  /** The answer is what its statement would have returned at the moment `t`, when version `v` was current. */
  predicate HeldAt(s: State, r: Reply, v: nat, t: nat) {
    CurrentAt(s.versions, v, t) && Fetch(s.versions[v].tables, r.key) == r.reading.value
  }

  ghost predicate IsRecent(s: State, r: Reply, delay: nat) {
    exists v: nat, t: nat :: HeldAt(s, r, v, t) && t <= r.at < t + Ttl(r.key) + delay
  }

  /**
   * Bounded staleness, in every interleaving: an answer about a key, from the cache or not, is what the
   * tables held at some moment less than the key's TTL plus `delay` before the answer.
   */
  lemma StalenessIsBounded(env: Env, actions: seq<Action>, delay: nat)
    requires Timely(env, START, actions, delay)
    ensures var s := Exec(env, START, actions);
      forall i :: 0 <= i < |s.replies| ==> IsRecent(s, s.replies[i], delay)
  {
    ExecKeepsInv(env, START, actions, delay);
    var s := Exec(env, START, actions);
    forall i | 0 <= i < |s.replies|
      ensures IsRecent(s, s.replies[i], delay)
    {
      TrueIsRecent(s, delay, i);
    }
  }

  lemma TrueIsRecent(s: State, delay: nat, i: nat)
    requires RepliesAreTrue(s, delay) && i < |s.replies|
    ensures IsRecent(s, s.replies[i], delay)
  {
    var r := s.replies[i];
    assert IsTrue(s.versions, r.key, r.reading);
    assert HeldAt(s, r, r.reading.version, r.reading.readAt);
  }

  /** Embeddings stored from leads seen at any earlier moment are those of the leads as they are now. */
  lemma MemoHoldsUnderConcurrency(env: Env, actions: seq<Action>, delay: nat)
    requires Timely(env, START, actions, delay)
    ensures var s := Exec(env, START, actions);
      s.versions != [] && MemoHolds(env, Tables(s))
  {
    ExecKeepsInv(env, START, actions, delay);
  }

  lemma {:induction false} OneMore(env: Env, s: State, actions: seq<Action>, a: Action, delay: nat)
    requires Timely(env, s, actions, delay) && TimelyStep(Exec(env, s, actions), a, delay)
    ensures Exec(env, s, actions + [a]) == Step(env, Exec(env, s, actions), a)
    ensures Timely(env, s, actions + [a], delay)
    decreases |actions|
  {
    if actions == [] {
      assert [a][1..] == [];
    } else {
      OneMore(env, Step(env, s, actions[0]), actions[1..], a, delay);
      assert (actions + [a])[1..] == actions[1..] + [a];
    }
  }

  ghost predicate Reachable(env: Env, s: State, delay: nat) {
    exists actions :: Timely(env, START, actions, delay) && Exec(env, START, actions) == s
  }

  lemma StepIsReachable(env: Env, s: State, a: Action, delay: nat)
    requires Reachable(env, s, delay) && TimelyStep(s, a, delay)
    ensures Reachable(env, Step(env, s, a), delay)
  {
    var actions :| Timely(env, START, actions, delay) && Exec(env, START, actions) == s;
    OneMore(env, START, actions, a, delay);
  }

  function FourCalls(): State {
    START.(calls := [Ready, Ready, Ready, Ready])
  }

  lemma FourCallsAreReachable(env: Env, delay: nat)
    ensures Reachable(env, FourCalls(), delay)
  {
    assert Timely(env, START, [], delay) && Exec(env, START, []) == START;
    StepIsReachable(env, START, Start, delay);
    var s1 := START.(calls := [Ready]);
    StepIsReachable(env, s1, Start, delay);
    var s2 := s1.(calls := [Ready, Ready]);
    StepIsReachable(env, s2, Start, delay);
    var s3 := s2.(calls := [Ready, Ready, Ready]);
    StepIsReachable(env, s3, Start, delay);
  }

  /** The lead was created, and storing it in the cache failed. */
  function Created(lead: Lead): State {
    FourCalls().(
      versions := [Version(0, EMPTY), Version(0, InsertLead(EMPTY, lead))], calls := [Done, Ready, Ready, Ready])
  }

  lemma CreatedIsReachable(env: Env, lead: Lead, delay: nat)
    requires IsFreshId(EMPTY, lead.id)
    ensures Reachable(env, Created(lead), delay)
  {
    FourCallsAreReachable(env, delay);
    StepIsReachable(env, FourCalls(), CreateRow(0, lead), delay);
    var s := StepCreate(FourCalls(), 0, lead);
    StepIsReachable(env, s, CacheSet(0, false), delay);
    assert StepSet(s, 0, false) == Created(lead);
  }

  /** A reader missed the key, read `value`, and has yet to store it. */
  function AboutToStore(lead: Lead, key: CacheKey, value: Cached): State {
    Created(lead).(calls := [Done, Storing(key, Reading(Some(value), 1, 0), true), Ready, Ready])
  }

  /** A call that misses the key reads the tables, and storing that is next. */
  lemma MissThenRead(env: Env, s: State, c: nat, key: CacheKey, value: Cached, delay: nat)
    requires Reachable(env, s, delay) && IsReady(s, c) && key !in s.cache && StoredKey(key) == key
    requires s.versions != [] && Fetch(Tables(s), key) == Some(value)
    ensures Reachable(env, Move(s, c, Storing(key, Reading(Some(value), |s.versions| - 1, s.now), true)), delay)
  {
    StepIsReachable(env, s, CacheGet(c, key), delay);
    var missed := StepGet(s, c, key);
    StepIsReachable(env, missed, DbRead(c), delay);
    assert StepRead(missed, c).calls == s.calls[c := Storing(key, Reading(Some(value), |s.versions| - 1, s.now), true)];
  }

  lemma ReaderFinishesReading(env: Env, lead: Lead, key: CacheKey, value: Cached, delay: nat)
    requires IsFreshId(EMPTY, lead.id) && StoredKey(key) == key && Fetch(InsertLead(EMPTY, lead), key) == Some(value)
    ensures Reachable(env, AboutToStore(lead, key, value), delay)
  {
    CreatedIsReachable(env, lead, delay);
    MissThenRead(env, Created(lead), 1, key, value, delay);
    var calls := [Done, Storing(key, Reading(Some(value), 1, 0), true), Ready, Ready];
    assert Created(lead).calls[1 := calls[1]] == calls;
  }

  // ---------------------------------------------------------------------------------------------
  // When a client sees an update
  // ---------------------------------------------------------------------------------------------

  /** Nothing older than version `v` is served under the key, or about to be stored there. */
  predicate NoStraggler(s: State, k: CacheKey, v: nat) {
    && (k in s.cache && s.now < s.cache[k].expiresAt ==> v <= s.cache[k].reading.version)
    && (forall c :: 0 <= c < |s.calls| && s.calls[c].Storing? && s.calls[c].key == k ==>
          v <= s.calls[c].reading.version)
  }

  /** The answers about the key that were given since `s` are of version `v` or newer. */
  predicate AnswersSince(s: State, next: State, k: CacheKey, v: nat) {
    forall i :: |s.replies| <= i < |next.replies| && next.replies[i].key == k ==> v <= next.replies[i].reading.version
  }

  lemma CacheStepKeepsNoStraggler(env: Env, s: State, a: Action, k: CacheKey, v: nat)
    requires v < |s.versions| && NoStraggler(s, k, v) && (a.CacheGet? || a.DbRead? || a.CacheSet?)
    ensures NoStraggler(Step(env, s, a), k, v)
    ensures s.replies <= Step(env, s, a).replies && AnswersSince(s, Step(env, s, a), k, v)
  {
  }

  lemma OtherStepsKeepNoStraggler(env: Env, s: State, a: Action, k: CacheKey, v: nat)
    requires v < |s.versions| && NoStraggler(s, k, v) && !a.CacheGet? && !a.DbRead? && !a.CacheSet?
    ensures NoStraggler(Step(env, s, a), k, v) && Step(env, s, a).replies == s.replies
  {
  }

  lemma VersionsStay(env: Env, s: State, a: Action)
    ensures s.versions <= Step(env, s, a).versions
  {
  }

  lemma {:induction false} NoStragglerAnswers(env: Env, s: State, actions: seq<Action>, k: CacheKey, v: nat)
    requires v < |s.versions| && NoStraggler(s, k, v)
    ensures s.replies <= Exec(env, s, actions).replies && AnswersSince(s, Exec(env, s, actions), k, v)
    decreases |actions|
  {
    if actions != [] {
      var next := Step(env, s, actions[0]);
      if actions[0].CacheGet? || actions[0].DbRead? || actions[0].CacheSet? {
        CacheStepKeepsNoStraggler(env, s, actions[0], k, v);
      } else {
        OtherStepsKeepNoStraggler(env, s, actions[0], k, v);
      }
      VersionsStay(env, s, actions[0]);
      NoStragglerAnswers(env, next, actions[1..], k, v);
    }
  }

  lemma Follow(env: Env, s: State, a: Action, rest: seq<Action>)
    ensures Exec(env, s, [a] + rest) == Exec(env, Step(env, s, a), rest)
  {
    assert ([a] + rest)[1..] == rest;
  }

  /** A client that asks now is served the live entry. */
  lemma AskNow(env: Env, s: State, k: CacheKey) returns (more: seq<Action>)
    requires s.versions != [] && k in s.cache && s.now < s.cache[k].expiresAt
    ensures Exec(env, s, more).replies == s.replies + [Reply(k, s.cache[k].reading, s.now)]
  {
    var n := |s.calls|;
    more := [Start] + ([CacheGet(n, k)] + []);
    Follow(env, s, Start, [CacheGet(n, k)] + []);
    Follow(env, s.(calls := s.calls + [Ready]), CacheGet(n, k), []);
  }

  lemma StragglerAnswers(env: Env, s: State, k: CacheKey, v: nat) returns (more: seq<Action>)
    requires s.versions != [] && !NoStraggler(s, k, v)
    ensures !AnswersSince(s, Exec(env, s, more), k, v)
  {
    if k in s.cache && s.now < s.cache[k].expiresAt && s.cache[k].reading.version < v {
      more := AskNow(env, s, k);
      assert Exec(env, s, more).replies[|s.replies|].reading.version < v;
    } else {
      var c: nat :| c < |s.calls| && s.calls[c].Storing? && s.calls[c].key == k && s.calls[c].reading.version < v;
      var stored := StepSet(s, c, true);
      var ask := AskNow(env, stored, k);
      more := [CacheSet(c, true)] + ask;
      Follow(env, s, CacheSet(c, true), ask);
      assert Exec(env, s, more).replies[|stored.replies|].reading.version < v;
    }
  }

  /**
   * Every later answer about a key is of version `v` or newer, in every continuation and however late its
   * steps are, if and only if nothing older is live under the key or on its way there.
   */
  lemma SeenIff(env: Env, s: State, k: CacheKey, v: nat)
    requires v < |s.versions|
    ensures NoStraggler(s, k, v) <==> forall more :: AnswersSince(s, Exec(env, s, more), k, v)
  {
    if NoStraggler(s, k, v) {
      forall more
        ensures AnswersSince(s, Exec(env, s, more), k, v)
      {
        NoStragglerAnswers(env, s, more, k, v);
      }
    } else {
      var more := StragglerAnswers(env, s, k, v);
    }
  }

  predicate IsBehind(slow: Call, quick: Call)
    requires quick.Storing?
  {
    slow.Storing? && slow.key == quick.key && slow.reading.version < quick.reading.version
  }

  /** Another call has read an older version of the key and is about to store it. */
  predicate SomeoneElseIsLate(s: State, c: nat) {
    && c < |s.calls| && s.calls[c].Storing?
    && (exists d :: 0 <= d < |s.calls| && d != c && IsBehind(s.calls[d], s.calls[c]))
  }

  /** After an update has stored its row, clients see it from then on if and only if no slower reader is under way. */
  lemma UpdateIsSeenIff(env: Env, s: State, c: nat)
    requires c < |s.calls| && s.calls[c].Storing? && s.calls[c].reading.version < |s.versions|
    ensures var key, v, stored := s.calls[c].key, s.calls[c].reading.version, StepSet(s, c, true);
      !SomeoneElseIsLate(s, c) <==> forall more :: AnswersSince(stored, Exec(env, stored, more), key, v)
  {
    var stored := StepSet(s, c, true);
    SeenIff(env, stored, s.calls[c].key, s.calls[c].reading.version);
    assert forall d :: 0 <= d < |s.calls| && d != c ==> stored.calls[d] == s.calls[d];
  }

  // ---------------------------------------------------------------------------------------------
  // The bound is met, for every kind of key
  // ---------------------------------------------------------------------------------------------

  /** Call `c` is about to store what was read at 0, and a write at 0 has made it untrue. */
  predicate IsStraggler(s: State, c: nat) {
    && s.now == 0 && c < |s.calls| && s.calls[c].Storing? && s.calls[c].reading.readAt == 0
    && s.versions != [] && (forall v :: 0 <= v < |s.versions| ==> s.versions[v].at == 0)
    && Fetch(Tables(s), s.calls[c].key) != s.calls[c].reading.value
  }

  /** The last answer is about `key`, comes TTL + delay - 1 after 0, and has not been true after 0. */
  ghost predicate IsStaleAtBound(s: State, key: CacheKey, delay: nat) {
    && s.replies != []
    && var r := s.replies[|s.replies| - 1];
    r.key == key && r.at == Ttl(key) + delay - 1 && (forall v: nat, t: nat :: HeldAt(s, r, v, t) ==> t == 0)
  }

  /** The straggler stores it as late as it may, and a client asks just before the entry lapses. */
  lemma StragglerMeetsBound(env: Env, s: State, c: nat, delay: nat)
    requires Reachable(env, s, delay) && IsStraggler(s, c)
    ensures exists end :: Reachable(env, end, delay) && IsStaleAtBound(end, s.calls[c].key, delay)
  {
    var key := s.calls[c].key;
    StepIsReachable(env, s, Start, delay);
    var s1 := s.(calls := s.calls + [Ready]);
    StepIsReachable(env, s1, Tick(delay), delay);
    var s2 := s1.(now := delay);
    StepIsReachable(env, s2, CacheSet(c, true), delay);
    var s3 := StepSet(s2, c, true);
    StepIsReachable(env, s3, Tick(Ttl(key) - 1), delay);
    var s4 := s3.(now := delay + (Ttl(key) - 1));
    StepIsReachable(env, s4, CacheGet(|s.calls|, key), delay);
    assert IsStaleAtBound(StepGet(s4, |s.calls|, key), key, delay);
  }

  /** A status update writes its row and stores it at once; the reader has the lead as it was. */
  lemma BoundIsMet(env: Env, lead: Lead, status: string, delay: nat)
    requires IsFreshId(EMPTY, lead.id) && status != lead.status
    ensures exists end :: Reachable(env, end, delay) && IsStaleAtBound(end, LeadKey(lead.id), delay)
  {
    ReaderFinishesReading(env, lead, LeadKey(lead.id), CachedLead(lead), delay);
    var s := AboutToStore(lead, LeadKey(lead.id), CachedLead(lead));
    UpdateMakesStraggler(env, s, lead, status, delay);
    var updated := StepUpdate(s, 2, lead.id, status);
    StepIsReachable(env, updated, CacheSet(2, true), delay);
    StragglerMeetsBound(env, StepSet(updated, 2, true), 1, delay);
  }

  /** Likewise the page that shows the lead, though the update invalidates it. */
  lemma PageBoundIsMet(env: Env, lead: Lead, status: string, limit: nat, delay: nat)
    requires IsFreshId(EMPTY, lead.id) && status != lead.status && 0 < limit
    ensures exists end :: Reachable(env, end, delay) && IsStaleAtBound(end, ListKey(limit, 0), delay)
  {
    var key := ListKey(limit, 0);
    PageOfOne(InsertLead(EMPTY, lead), lead, limit);
    ReaderFinishesReading(env, lead, key, CachedList([lead]), delay);
    var s := AboutToStore(lead, key, CachedList([lead]));
    var updated := StepUpdate(s, 2, lead.id, status);
    PageOfOne(Tables(updated), lead.(status := status, updatedAt := 0), limit);
    UpdateMakesStraggler(env, s, lead, status, delay);
    StepIsReachable(env, updated, Delete({key}), delay);
    StragglerMeetsBound(env, updated.(cache := updated.cache - {key}), 1, delay);
  }

  lemma PageOfOne(tables: Tables, lead: Lead, limit: nat)
    requires tables.order == [lead.id] && tables.leads == map[lead.id := lead] && 0 < limit
    ensures Page(tables, limit, 0) == [lead]
  {
    assert tables.order[..0] == [];
    assert NewestFirst(tables, tables.order) == [lead] + NewestFirst(tables, []);
  }

  lemma UpdateMakesStraggler(env: Env, s: State, lead: Lead, status: string, delay: nat)
    requires Reachable(env, s, delay) && |s.calls| == 4 && s.calls[2].Ready? && s.versions != []
    requires lead.id in Tables(s).leads
    ensures Reachable(env, StepUpdate(s, 2, lead.id, status), delay)
  {
    StepIsReachable(env, s, UpdateRow(2, lead.id, status), delay);
  }

  /** And a score: a second one is inserted and stored before the reader of the first stores it. */
  lemma ScoreBoundIsMet(env: Env, lead: Lead, first: LeadScore, second: LeadScore, delay: nat)
    requires IsFreshId(EMPTY, lead.id) && first.leadId == lead.id == second.leadId && first != second
    ensures var key := ScoreKey(lead.id, ContentHash(env, lead));
      exists end :: Reachable(env, end, delay) && IsStaleAtBound(end, key, delay)
  {
    var key := ScoreKey(lead.id, ContentHash(env, lead));
    ScoreReaderFinishesReading(env, lead, first, key, delay);
    var s := AboutToStoreScore(lead, first, key);
    StepIsReachable(env, s, InsertScore(3, second, 1), delay);
    var scored := StepScore(env, s, 3, second, 1);
    StepIsReachable(env, scored, CacheSet(3, true), delay);
    assert Fetch(Tables(scored), key) == Some(CachedScore(second));
    StragglerMeetsBound(env, StepSet(scored, 3, true), 2, delay);
  }

  /** The lead has a score, which was not cached. */
  function FirstScored(lead: Lead, first: LeadScore): State {
    Created(lead).(
      versions := Created(lead).versions + [Version(0, Scored(InsertLead(EMPTY, lead), first))],
      calls := [Done, Done, Ready, Ready])
  }

  function AboutToStoreScore(lead: Lead, first: LeadScore, key: CacheKey): State {
    FirstScored(lead, first).(calls := [Done, Done, Storing(key, Reading(Some(CachedScore(first)), 2, 0), true), Ready])
  }

  lemma ScoreReaderFinishesReading(env: Env, lead: Lead, first: LeadScore, key: CacheKey, delay: nat)
    requires IsFreshId(EMPTY, lead.id) && first.leadId == lead.id && key == ScoreKey(lead.id, ContentHash(env, lead))
    ensures Reachable(env, AboutToStoreScore(lead, first, key), delay)
  {
    FirstScoreIsReachable(env, lead, first, delay);
    MissThenRead(env, FirstScored(lead, first), 2, key, CachedScore(first), delay);
    var calls := [Done, Done, Storing(key, Reading(Some(CachedScore(first)), 2, 0), true), Ready];
    assert FirstScored(lead, first).calls[2 := calls[2]] == calls;
  }

  lemma FirstScoreIsReachable(env: Env, lead: Lead, first: LeadScore, delay: nat)
    requires IsFreshId(EMPTY, lead.id) && first.leadId == lead.id
    ensures Reachable(env, FirstScored(lead, first), delay)
  {
    CreatedIsReachable(env, lead, delay);
    StepIsReachable(env, Created(lead), InsertScore(1, first, 1), delay);
    var s := StepScore(env, Created(lead), 1, first, 1);
    StepIsReachable(env, s, CacheSet(1, false), delay);
    assert StepSet(s, 1, false).calls == [Done, Done, Ready, Ready];
  }
}

/** What the calls of the lead service do for each other: what is written is read, in order, and stays. */
module LeadLaws {
  import opened Options
  import opened Text
  import opened Leads
  import opened Scoring
  import opened LeadTables
  import opened LeadService
  import opened EmbeddingMemo
  import opened ScoringPipeline

  predicate HasRecord(env: Env, tables: Tables, id: string) {
    (id, env.model) in tables.embeddings
  }

  // ---------------------------------------------------------------------------------------------
  // Creating, updating, reading
  // ---------------------------------------------------------------------------------------------

  /** The lead made of what a client sent: trimmed, the address in lower case, numbers that are not positive as 0. */
  predicate IsLeadOf(input: Input, lead: Lead) {
    && lead.companyName == TrimSpace(input.companyName) && lead.contactName == TrimSpace(input.contactName)
    && lead.email == ToLower(TrimSpace(input.email)) && lead.phone == TrimSpace(input.phone)
    && lead.source == TrimSpace(input.source) && lead.industry == TrimSpace(input.industry)
    && lead.notes == TrimSpace(input.notes) && lead.status == "new"
    && lead.companySize as int == (if input.companySize > 0 then input.companySize else 0)
    && lead.annualRevenue as int == (if input.annualRevenue > 0 then input.annualRevenue else 0)
  }

  /** A company, an address with an @ in it and a source are needed. */
  predicate IsValid(input: Input) {
    !IsBlank(input.companyName) && !IsBlank(input.source) && '@' in ToLower(TrimSpace(input.email))
  }

  lemma AcceptableIff(input: Input)
    ensures Acceptable(LeadTables.Normalize(input)) <==> IsValid(input)
  {
    TrimSpaceIs(input.companyName);
    TrimSpaceIs(input.source);
  }

  lemma GetByOwnId(env: Env, tables: Tables, id: string)
    requires IsUuid(id) && ToLower(id) == id && id in tables.leads
    ensures Plain(env, tables, Get(id)) == (tables, OneLead(tables.leads[id]))
  {
    UuidIsTrimmed(id);
  }

  /** Whichever letters of the identifier are upper case. */
  lemma GetIgnoresCase(env: Env, tables: Tables, id: string)
    requires IsUuid(id) && ToLower(id) in tables.leads
    ensures Plain(env, tables, Get(id)) == (tables, OneLead(tables.leads[ToLower(id)]))
  {
    UuidIsTrimmed(id);
  }

  /** A valid request creates its lead, which can then be read; the others stay; an invalid one changes nothing. */
  lemma CreateThenGet(env: Env, tables: Tables, input: Input, newId: string, now: nat)
    requires IsFreshId(tables, newId)
    ensures var (tables', answer) := Plain(env, tables, Create(input, newId, now));
      if IsValid(input) then
        && answer.OneLead? && IsLeadOf(input, answer.lead) && answer.lead.id == newId
        && answer.lead.createdAt == now == answer.lead.updatedAt
        && tables'.leads == tables.leads[newId := answer.lead] && tables'.order == tables.order + [newId]
        && Plain(env, tables', Get(newId)) == (tables', OneLead(answer.lead))
      else
        answer == InvalidLead && tables' == tables
  {
    AcceptableIff(input);
    if IsValid(input) {
      GetByOwnId(env, Plain(env, tables, Create(input, newId, now)).0, newId);
    }
  }

  /** A new lead gets its job, if the queue takes it, or its embedding at once where there is no queue. */
  lemma CreateEmbeds(env: Env, tables: Tables, input: Input, newId: string, now: nat)
    requires IsFreshId(tables, newId) && IsValid(input)
    ensures var (tables', answer) := Plain(env, tables, Create(input, newId, now));
      && tables'.scores == tables.scores
      && match env.queue
         case Queue(accepts) =>
           && tables'.embeddings == tables.embeddings
           && tables'.embedJobs == if accepts(newId) then tables.embedJobs + [newId] else tables.embedJobs
         case NoQueue =>
           && tables'.embedJobs == tables.embedJobs
           && (env.embed(Content(NewRow(LeadTables.Normalize(input), newId, now))).Some? ==>
                 HasRecord(env, tables', newId))
  {
    AcceptableIff(input);
  }

  /** A request about a lead that is not there is answered so, and changes nothing. */
  lemma UnknownChangesNothing(env: Env, tables: Tables, id: string, status: string, limit: int, now: nat)
    requires ToLower(TrimSpace(id)) !in tables.leads || !IsUuid(TrimSpace(id))
    ensures Plain(env, tables, Get(id)) == Plain(env, tables, Embed(id)) == Plain(env, tables, SearchSimilar(id, limit))
      == Plain(env, tables, Score(id, now)) == Plain(env, tables, LatestScore(id)) == (tables, LeadNotFound)
    ensures Plain(env, tables, UpdateStatus(id, status, now)).0 == tables
    ensures Plain(env, tables, UpdateStatus(id, status, now)).1 in {LeadNotFound, InvalidStatus}
  {
  }

  /** A status update changes the status and the time of that lead and nothing else. */
  lemma UpdateThenGet(env: Env, tables: Tables, id: string, status: string, now: nat)
    requires WellKept(tables) && id in tables.leads
    ensures var (tables', answer) := Plain(env, tables, UpdateStatus(id, status, now));
      var wanted := ToLower(TrimSpace(status));
      if wanted in {"new", "contacted", "qualified", "won", "lost", "disqualified", "converted", "customer"} then
        && answer == OneLead(tables.leads[id].(status := wanted, updatedAt := now))
        && tables' == tables.(leads := tables.leads[id := answer.lead])
        && Plain(env, tables', Get(id)) == (tables', answer)
      else
        answer == InvalidStatus && tables' == tables
  {
    UuidIsTrimmed(id);
    if ToLower(TrimSpace(status)) in ALLOWED_STATUSES {
      GetByOwnId(env, Plain(env, tables, UpdateStatus(id, status, now)).0, id);
    }
  }

  // ---------------------------------------------------------------------------------------------
  // Scores
  // ---------------------------------------------------------------------------------------------

  /** Score `i` is of the lead, and none after it is. */
  predicate IsLast(scores: seq<LeadScore>, leadId: string, i: nat) {
    i < |scores| && scores[i].leadId == leadId && forall j :: i < j < |scores| ==> scores[j].leadId != leadId
  }

  lemma {:induction false} LatestIs(scores: seq<LeadScore>, leadId: string)
    ensures Latest(scores, leadId).Some? ==>
      exists i: nat :: IsLast(scores, leadId, i) && Latest(scores, leadId).value == scores[i]
    ensures Latest(scores, leadId).None? ==> forall i :: 0 <= i < |scores| ==> scores[i].leadId != leadId
  {
    if scores != [] {
      var n := |scores| - 1;
      if scores[n].leadId == leadId {
        assert IsLast(scores, leadId, n);
      } else {
        LatestIs(scores[..n], leadId);
        if Latest(scores, leadId).Some? {
          var i: nat :| IsLast(scores[..n], leadId, i) && Latest(scores[..n], leadId).value == scores[..n][i];
          assert IsLast(scores, leadId, i);
        } else {
          assert forall i :: 0 <= i < n ==> scores[..n][i] == scores[i];
        }
      }
    }
  }

  /** The latest score of a lead is the one it was given last; scoring others does not change it. */
  lemma ScoreThenLatest(env: Env, tables: Tables, id: string, now: nat, other: string)
    requires WellKept(tables) && id in tables.leads && other in tables.leads
    requires Plain(env, tables, Score(id, now)).1.Scored?
    ensures var (tables', answer) := Plain(env, tables, Score(id, now));
      && tables'.leads == tables.leads && answer.score.leadId == id
      && Plain(env, tables', LatestScore(id)) == (tables', OneScore(answer.score))
      && (other != id ==> Plain(env, tables', LatestScore(other)).1 == Plain(env, tables, LatestScore(other)).1)
  {
    UuidIsTrimmed(id);
    UuidIsTrimmed(other);
    var (tables', answer) := Plain(env, tables, Score(id, now));
    assert tables'.scores == tables.scores + [answer.score];
    assert tables'.scores[..|tables.scores|] == tables.scores;
  }

  // ---------------------------------------------------------------------------------------------
  // Pages
  // ---------------------------------------------------------------------------------------------

  /** The order lists every lead once, oldest first. */
  ghost predicate IsListed(tables: Tables) {
    && (forall i :: 0 <= i < |tables.order| ==> tables.order[i] in tables.leads)
    && (forall id :: id in tables.leads ==> id in tables.order)
    && (forall i, j :: 0 <= i < j < |tables.order| ==> tables.order[i] != tables.order[j])
  }

  ghost predicate IsAged(tables: Tables)
    requires IsListed(tables)
  {
    forall i, j :: 0 <= i < j < |tables.order| ==>
      tables.leads[tables.order[i]].createdAt < tables.leads[tables.order[j]].createdAt
  }

  lemma {:induction false} NewestFirstIs(tables: Tables, ids: seq<string>)
    requires forall i :: 0 <= i < |ids| ==> ids[i] in tables.leads
    ensures |NewestFirst(tables, ids)| == |ids|
    ensures forall i :: 0 <= i < |ids| ==> NewestFirst(tables, ids)[i] == tables.leads[ids[|ids| - 1 - i]]
  {
    if ids != [] {
      var n := |ids| - 1;
      assert forall i :: 0 <= i < n ==> ids[..n][i] == ids[i];
      NewestFirstIs(tables, ids[..n]);
    }
  }

  predicate IsStored(tables: Tables, lead: Lead) {
    lead.id in tables.leads && tables.leads[lead.id] == lead
  }

  function Least(a: nat, b: nat): nat {
    if a < b then a else b
  }

  /** The page from `offset` on, newest first. */
  lemma PageIs(tables: Tables, limit: nat, offset: nat)
    requires IsListed(tables)
    ensures var n, page := |tables.order|, Page(tables, limit, offset);
      && |page| == Least(limit, if offset <= n then n - offset else 0)
      && forall i :: 0 <= i < |page| ==> page[i] == tables.leads[tables.order[n - 1 - offset - i]]
  {
    NewestFirstIs(tables, tables.order);
  }

  lemma PageAt(tables: Tables, limit: nat, offset: nat, i: nat)
    requires WellKept(tables) && IsListed(tables) && i < |Page(tables, limit, offset)|
    ensures i + offset < |tables.order|
    ensures Page(tables, limit, offset)[i].id == tables.order[|tables.order| - 1 - offset - i]
  {
    PageIs(tables, limit, offset);
  }

  /** Twenty leads when no limit is given, never over a hundred, and from the newest when the offset is negative. */
  lemma ListIs(env: Env, tables: Tables, limit: int, offset: int)
    requires IsListed(tables)
    ensures var (tables', answer) := Plain(env, tables, List(limit, offset));
      && tables' == tables && answer.Leads? && |answer.leads| <= 100
      && (limit <= 0 ==> answer == Plain(env, tables, List(20, offset)).1)
      && (limit > 100 ==> answer == Plain(env, tables, List(100, offset)).1)
      && (offset < 0 ==> answer == Plain(env, tables, List(limit, 0)).1)
      && (0 < limit <= 100 && 0 <= offset ==> answer.leads == Page(tables, limit, offset))
  {
    NewestFirstIs(tables, tables.order);
  }

  /** Consecutive pages join. */
  lemma PagesJoin(tables: Tables, first: nat, second: nat, offset: nat)
    requires IsListed(tables)
    ensures Page(tables, first, offset) + Page(tables, second, offset + first) == Page(tables, first + second, offset)
  {
    NewestFirstIs(tables, tables.order);
  }

  lemma LongPageMissesNone(tables: Tables, limit: nat, id: string)
    requires IsListed(tables) && |tables.order| <= limit && id in tables.leads
    ensures tables.leads[id] in Page(tables, limit, 0)
  {
    PageIs(tables, limit, 0);
    var n, page := |tables.order|, Page(tables, limit, 0);
    var k :| 0 <= k < n && tables.order[k] == id;
    assert page[n - 1 - k] == tables.leads[id];
  }

  lemma PageHasEachOnce(tables: Tables, limit: nat, offset: nat)
    requires WellKept(tables) && IsListed(tables)
    ensures var page := Page(tables, limit, offset);
      forall i, j :: 0 <= i < j < |page| ==> page[i].id != page[j].id
  {
    var page := Page(tables, limit, offset);
    forall i, j | 0 <= i < j < |page|
      ensures page[i].id != page[j].id
    {
      PageAt(tables, limit, offset, i);
      PageAt(tables, limit, offset, j);
    }
  }

  /** A long enough page has every lead, each once, and nothing else. */
  lemma LongPageHasAll(tables: Tables, limit: nat)
    requires WellKept(tables) && IsListed(tables) && |tables.order| <= limit
    ensures var page := Page(tables, limit, 0);
      && (forall id :: id in tables.leads ==> tables.leads[id] in page)
      && (forall i :: 0 <= i < |page| ==> IsStored(tables, page[i]))
      && (forall i, j :: 0 <= i < j < |page| ==> page[i].id != page[j].id)
  {
    PageIs(tables, limit, 0);
    PageHasEachOnce(tables, limit, 0);
    forall id | id in tables.leads
      ensures tables.leads[id] in Page(tables, limit, 0)
    {
      LongPageMissesNone(tables, limit, id);
    }
  }

  /** Pages go strictly back in time. */
  lemma PageDescends(tables: Tables, limit: nat, offset: nat)
    requires IsListed(tables) && IsAged(tables)
    ensures var page := Page(tables, limit, offset);
      forall i, j :: 0 <= i < j < |page| ==> page[j].createdAt < page[i].createdAt
  {
    PageIs(tables, limit, offset);
  }

  predicate IsEarlier(tables: Tables, now: nat) {
    forall id :: id in tables.leads ==> tables.leads[id].createdAt < now
  }

  /** Each lead is created after those before it. */
  predicate ClockRuns(env: Env, tables: Tables, requests: seq<Request>)
    decreases |requests|
  {
    requests == []
    || (&& (requests[0].Create? ==> IsEarlier(tables, requests[0].now))
        && ClockRuns(env, Plain(env, tables, requests[0]).0, requests[1..]))
  }

  lemma SameRowsStayListed(tables: Tables, tables': Tables)
    requires IsListed(tables) && tables'.order == tables.order && tables'.leads.Keys == tables.leads.Keys
    requires forall id :: id in tables.leads ==> tables'.leads[id].createdAt == tables.leads[id].createdAt
    ensures IsListed(tables') && (IsAged(tables) ==> IsAged(tables'))
  {
  }

  lemma InsertStaysComplete(tables: Tables, lead: Lead)
    requires forall id :: id in tables.leads ==> id in tables.order
    ensures var next := InsertLead(tables, lead); forall id :: id in next.leads ==> id in next.order
  {
    assert lead.id in [lead.id];
  }

  lemma InsertStaysListed(tables: Tables, lead: Lead)
    requires IsListed(tables) && lead.id !in tables.leads
    ensures IsListed(InsertLead(tables, lead))
  {
    var next, n := InsertLead(tables, lead), |tables.order|;
    InsertStaysComplete(tables, lead);
    assert forall i :: 0 <= i < n ==> next.order[i] == tables.order[i];
    assert next.order[n] == lead.id;
  }

  lemma InsertStaysAged(tables: Tables, lead: Lead)
    requires IsListed(tables) && IsAged(tables) && lead.id !in tables.leads && IsEarlier(tables, lead.createdAt)
    requires IsListed(InsertLead(tables, lead))
    ensures IsAged(InsertLead(tables, lead))
  {
    var next, n := InsertLead(tables, lead), |tables.order|;
    forall i, j | 0 <= i < j < |next.order|
      ensures next.leads[next.order[i]].createdAt < next.leads[next.order[j]].createdAt
    {
      assert next.order[i] == tables.order[i] && next.leads[next.order[i]] == tables.leads[tables.order[i]];
      if j < n {
        assert next.order[j] == tables.order[j] && next.leads[next.order[j]] == tables.leads[tables.order[j]];
      }
    }
  }

  lemma AfterCreateKeepsLeads(env: Env, tables: Tables, id: string)
    ensures AfterCreate(env, tables, id).leads == tables.leads && AfterCreate(env, tables, id).order == tables.order
  {
  }

  lemma CreateStaysListed(env: Env, tables: Tables, input: Input, newId: string, now: nat)
    requires IsListed(tables)
    ensures var tables' := PlainCreate(env, tables, input, newId, now).0;
      IsListed(tables') && (IsAged(tables) && IsEarlier(tables, now) ==> IsAged(tables'))
  {
    var lead := NewRow(LeadTables.Normalize(input), newId, now);
    if IsFreshId(tables, newId) && Acceptable(LeadTables.Normalize(input)) {
      var inserted := InsertLead(tables, lead);
      InsertStaysListed(tables, lead);
      if IsAged(tables) && IsEarlier(tables, now) {
        InsertStaysAged(tables, lead);
      }
      AfterCreateKeepsLeads(env, inserted, newId);
      SameRowsStayListed(inserted, AfterCreate(env, inserted, newId));
    }
  }

  lemma UpdateStaysListed(tables: Tables, id: string, status: string, now: nat)
    requires WellKept(tables) && IsListed(tables)
    ensures var tables' := PlainUpdateStatus(tables, id, status, now).0;
      IsListed(tables') && (IsAged(tables) ==> IsAged(tables'))
  {
    SameRowsStayListed(tables, PlainUpdateStatus(tables, id, status, now).0);
  }

  lemma OthersKeepLeads(env: Env, tables: Tables, r: Request)
    requires !r.Create? && !r.UpdateStatus?
    ensures Plain(env, tables, r).0.leads == tables.leads && Plain(env, tables, r).0.order == tables.order
  {
  }

  lemma RequestStaysListed(env: Env, tables: Tables, r: Request)
    requires WellKept(tables) && IsListed(tables)
    ensures IsListed(Plain(env, tables, r).0)
    ensures IsAged(tables) && (r.Create? ==> IsEarlier(tables, r.now)) ==> IsAged(Plain(env, tables, r).0)
  {
    match r
    case Create(input, newId, now) => CreateStaysListed(env, tables, input, newId, now);
    case UpdateStatus(id, status, now) => UpdateStaysListed(tables, id, status, now);
    case _ =>
      OthersKeepLeads(env, tables, r);
      SameRowsStayListed(tables, Plain(env, tables, r).0);
  }

  lemma {:induction false} RunStaysListed(env: Env, tables: Tables, requests: seq<Request>)
    requires WellKept(tables) && MemoHolds(env, tables) && IsListed(tables)
    ensures IsListed(PlainTables(env, tables, requests))
    ensures IsAged(tables) && ClockRuns(env, tables, requests) ==> IsAged(PlainTables(env, tables, requests))
    decreases |requests|
  {
    if requests != [] {
      RequestStaysListed(env, tables, requests[0]);
      RequestKeepsMemo(env, tables, requests[0]);
      RunStaysListed(env, Plain(env, tables, requests[0]).0, requests[1..]);
    }
  }

  /**
   * After any requests, creations in time order: every page goes strictly back in time, consecutive pages join,
   * and a long enough one has all the leads, each once.
   */
  lemma PagesOfRuns(env: Env, requests: seq<Request>, first: nat, second: nat, offset: nat)
    requires ClockRuns(env, EMPTY, requests)
    ensures var tables := PlainTables(env, EMPTY, requests);
      var page, all := Page(tables, first, offset), Page(tables, |tables.order|, 0);
      && (forall i, j :: 0 <= i < j < |page| ==> page[j].createdAt < page[i].createdAt)
      && page + Page(tables, second, offset + first) == Page(tables, first + second, offset)
      && (forall id :: id in tables.leads ==> tables.leads[id] in all)
      && (forall i, j :: 0 <= i < j < |all| ==> all[i].id != all[j].id)
  {
    RunStaysListed(env, EMPTY, requests);
    RunKeepsMemo(env, EMPTY, requests);
    var tables := PlainTables(env, EMPTY, requests);
    PageDescends(tables, first, offset);
    PagesJoin(tables, first, second, offset);
    LongPageHasAll(tables, |tables.order|);
  }

  // ---------------------------------------------------------------------------------------------
  // Embeddings
  // ---------------------------------------------------------------------------------------------

  predicate IsRecorded(env: Env, tables: Tables, lead: Lead, vector: Vector) {
    && HasRecord(env, tables, lead.id)
    && tables.embeddings[(lead.id, env.model)] == Embedding(env.sha256(Content(lead)), vector)
  }

  /** A call that answers a vector leaves it recorded with the content's hash, and changes nothing else. */
  lemma EnsureStores(env: Env, tables: Tables, lead: Lead)
    ensures var (tables', vector) := EnsureEmbedding(env, tables, lead);
      && (vector.Some? ==> IsRecorded(env, tables', lead, vector.value))
      && (vector.None? ==> tables' == tables)
      && tables' == tables.(embeddings := tables'.embeddings)
      && (forall key :: key in tables.embeddings && key != (lead.id, env.model) ==>
            key in tables'.embeddings && tables'.embeddings[key] == tables.embeddings[key])
  {
  }

  /** A search is for five neighbours when no number is given, never for more than twenty, and for as many as asked. */
  lemma SearchLimits(env: Env, tables: Tables, id: string, limit: int)
    ensures limit <= 0 ==> Plain(env, tables, SearchSimilar(id, limit)) == Plain(env, tables, SearchSimilar(id, 5))
    ensures limit > 20 ==> Plain(env, tables, SearchSimilar(id, limit)) == Plain(env, tables, SearchSimilar(id, 20))
    ensures var (tables', answer) := Plain(env, tables, SearchSimilar(id, limit));
      0 < limit <= 20 && answer.Neighbours? ==>
        var leadId := ToLower(TrimSpace(id));
        leadId in tables.leads && HasRecord(env, tables', tables.leads[leadId].id)
        && answer.similar == FindSimilar(env, tables', tables.leads[leadId].id,
             tables'.embeddings[(tables.leads[leadId].id, env.model)].vector, limit)
  {
  }

  /** Afterwards the embedder is not needed for that content. */
  lemma StoredNeedsNoEmbedder(env: Env, tables: Tables, lead: Lead)
    requires EnsureEmbedding(env, tables, lead).1.Some?
    ensures var down, (tables', vector) := env.(embed := _ => None), EnsureEmbedding(env, tables, lead);
      EnsureEmbedding(down, tables', lead) == (tables', vector)
  {
  }

  /** The records stay as they are, whatever is asked for. */
  ghost predicate RecordsKept(tables: Tables, tables': Tables) {
    forall key :: key in tables.embeddings ==>
      key in tables'.embeddings && tables'.embeddings[key] == tables.embeddings[key]
  }

  lemma EnsureKeepsRecords(env: Env, tables: Tables, lead: Lead)
    requires MemoHolds(env, tables) && lead.id in tables.leads && Content(tables.leads[lead.id]) == Content(lead)
    ensures RecordsKept(tables, EnsureEmbedding(env, tables, lead).0)
  {
    EnsureStores(env, tables, lead);
  }

  lemma FindKeepsRecords(env: Env, tables: Tables, id: string)
    requires WellKept(tables) && MemoHolds(env, tables)
    ensures RecordsKept(tables, PlainEmbed(env, tables, id).0)
  {
    if Find(tables, id).Some? {
      EnsureKeepsRecords(env, tables, Find(tables, id).value);
    }
  }

  lemma CreateKeepsRecords(env: Env, tables: Tables, input: Input, newId: string, now: nat)
    requires WellKept(tables) && MemoHolds(env, tables)
    ensures RecordsKept(tables, PlainCreate(env, tables, input, newId, now).0)
  {
    var lead := NewRow(LeadTables.Normalize(input), newId, now);
    if Acceptable(LeadTables.Normalize(input)) && IsFreshId(tables, newId) {
      InsertKeepsMemo(env, tables, lead);
      FindKeepsRecords(env, InsertLead(tables, lead), newId);
    }
  }

  lemma RequestKeepsRecords(env: Env, tables: Tables, r: Request)
    requires WellKept(tables) && MemoHolds(env, tables)
    ensures RecordsKept(tables, Plain(env, tables, r).0)
  {
    match r
    case Create(input, newId, now) => CreateKeepsRecords(env, tables, input, newId, now);
    case Embed(id) => FindKeepsRecords(env, tables, TrimSpace(id));
    case SearchSimilar(id, _) => FindKeepsRecords(env, tables, TrimSpace(id));
    case Score(id, _) => FindKeepsRecords(env, tables, TrimSpace(id));
    case _ =>
  }

  lemma {:induction false} RunKeepsRecords(env: Env, tables: Tables, requests: seq<Request>)
    requires WellKept(tables) && MemoHolds(env, tables)
    ensures RecordsKept(tables, PlainTables(env, tables, requests))
    decreases |requests|
  {
    if requests != [] {
      RequestKeepsRecords(env, tables, requests[0]);
      RequestKeepsMemo(env, tables, requests[0]);
      RunKeepsRecords(env, Plain(env, tables, requests[0]).0, requests[1..]);
    }
  }

  lemma {:induction false} TablesSplit(env: Env, tables: Tables, first: seq<Request>, rest: seq<Request>)
    ensures PlainTables(env, tables, first + rest) == PlainTables(env, PlainTables(env, tables, first), rest)
    decreases |first|
  {
    if first == [] {
      assert first + rest == rest;
    } else {
      assert (first + rest)[1..] == first[1..] + rest;
      TablesSplit(env, Plain(env, tables, first[0]).0, first[1..], rest);
    }
  }

  /** The request embeds the lead, searches with it or scores it, in either case of the identifier. */
  predicate Embeds(r: Request, id: string) {
    (r.Embed? || r.SearchSimilar? || r.Score?) && ToLower(TrimSpace(r.id)) == id
  }

  predicate IsDone(answer: Answer) {
    answer.Embedded? || answer.Neighbours? || answer.Scored?
  }

  lemma DoneHasRecord(env: Env, tables: Tables, r: Request, id: string)
    requires WellKept(tables) && Embeds(r, id) && id in tables.leads && IsDone(Plain(env, tables, r).1)
    ensures HasRecord(env, Plain(env, tables, r).0, id)
  {
    EnsureStores(env, tables, tables.leads[id]);
  }

  /**
   * Once a lead was embedded, searched with or scored, it has its record for ever, and is among the rows that
   * every search with another lead chooses from.
   */
  lemma EmbeddedIsFound(env: Env, before: seq<Request>, r: Request, after: seq<Request>, id: string, other: string,
      vector: Vector)
    requires var tables := PlainTables(env, EMPTY, before);
      id in tables.leads && Embeds(r, id) && IsDone(Plain(env, tables, r).1) && id != other
    ensures var tables := PlainTables(env, EMPTY, before + ([r] + after));
      && HasRecord(env, tables, id)
      && exists row :: row in Candidates(env, tables, tables.order, other, vector)
           && IsRowOf(env, tables, other, vector, id, row)
  {
    var tables := PlainTables(env, EMPTY, before);
    var next := Plain(env, tables, r).0;
    RunKeepsMemo(env, EMPTY, before);
    TablesSplit(env, EMPTY, before, [r] + after);
    assert ([r] + after)[1..] == after;
    DoneHasRecord(env, tables, r, id);
    RequestKeepsMemo(env, tables, r);
    RunKeepsRecords(env, next, after);
    RunKeepsMemo(env, next, after);
    RunStaysListed(env, EMPTY, before + ([r] + after));
    var end := PlainTables(env, next, after);
    assert id in end.leads;
    OthersAreCandidates(env, end, end.order, other, vector, id);
  }
}

/**
 * The Postgres tables (internal/lead/repository/postgres_repository.go) and the lead service over them
 * alone, as it behaves when there is no cache (internal/lead/service/service.go with cache == nil).
 */
module LeadTables {
  import opened Options
  import opened Text
  import opened Leads
  import opened Scoring

  /** A vector as it is printed for the database, in millionths. */
  type Vector = seq<int>

  datatype Embedding = Embedding(contentHash: string, vector: Vector)

  datatype LeadScore = LeadScore(leadId: string, probability: real, reasoning: string, model: string, createdAt: nat)

  /** `order` lists the leads by creation, `scores` by insertion; both times are the database's and increase. */
  datatype Tables = Tables(
    leads: map<string, Lead>,
    order: seq<string>,
    scores: seq<LeadScore>,
    embeddings: map<(string, string), Embedding>,   // by lead and model
    embedJobs: seq<string>)                         // the leads that embed jobs were enqueued for

  const EMPTY := Tables(map[], [], [], map[], [])

  datatype JobQueue = NoQueue | Queue(accepts: string -> bool)

  /** What the service calls out to. Embedding and scoring may fail. */
  datatype Env = Env(
    sha256: string -> string,
    model: string,
    embed: string -> Option<Vector>,
    similarity: (Vector, Vector) -> real,
    nearest: (seq<Similar>, nat) -> seq<Similar>,   // the index's choice of so many rows
    score: (Lead, seq<Similar>) -> Decision,
    queue: JobQueue)

  /** A lead as the client sends it; the revenue is rounded to cents by the column. */
  datatype Input = Input(companyName: string, contactName: string, email: string, phone: string, source: string,
                         industry: string, companySize: int, annualRevenue: int, notes: string)

  datatype Request =
    | Create(input: Input, newId: string, now: nat)   // the database picks the identifier and the time
    | UpdateStatus(id: string, status: string, now: nat)
    | List(limit: int, offset: int)
    | Get(id: string)
    | Embed(id: string)
    | SearchSimilar(id: string, limit: int)
    | Score(id: string, now: nat)
    | LatestScore(id: string)

  datatype Answer =
    | OneLead(lead: Lead)
    | Leads(leads: seq<Lead>)
    | Embedded(leadId: string, contentHash: string)
    | Neighbours(similar: seq<Similar>)
    | Scored(score: LeadScore, similar: seq<Similar>)
    | OneScore(score: LeadScore)
    | InvalidLead | InvalidStatus | LeadNotFound | ScoreNotFound | Failed

  const ALLOWED_STATUSES := {"new", "contacted", "qualified", "won", "lost", "disqualified", "converted", "customer"}

  function Normalize(input: Input): Input {
    Input(TrimSpace(input.companyName), TrimSpace(input.contactName), ToLower(TrimSpace(input.email)),
          TrimSpace(input.phone), TrimSpace(input.source), TrimSpace(input.industry), input.companySize,
          input.annualRevenue, TrimSpace(input.notes))
  }

  predicate Acceptable(input: Input) {
    input.companyName != "" && input.email != "" && input.source != "" && '@' in input.email
  }

  /** The row as RETURNING gives it back: numbers that are not positive are stored as NULL and read as 0. */
  function NewRow(input: Input, id: string, now: nat): Lead {
    Lead(id, input.companyName, input.contactName, input.email, input.phone, input.source, input.industry,
         if input.companySize > 0 then input.companySize else 0,
         if input.annualRevenue > 0 then input.annualRevenue else 0,
         input.notes, "new", now, now)
  }

  /** The database hands out canonical identifiers, each once. */
  predicate IsFreshId(tables: Tables, id: string) {
    IsUuid(id) && ToLower(id) == id && id !in tables.leads
  }

  function InsertLead(tables: Tables, lead: Lead): Tables {
    tables.(leads := tables.leads[lead.id := lead], order := tables.order + [lead.id])
  }

  /** Postgres reads an identifier in either case and stores it in lower case. */
  function Find(tables: Tables, id: string): Option<Lead> {
    if IsUuid(id) && ToLower(id) in tables.leads then Some(tables.leads[ToLower(id)]) else None
  }

  function SetStatus(tables: Tables, lead: Lead, status: string, now: nat): Tables {
    tables.(leads := tables.leads[lead.id := lead.(status := status, updatedAt := now)])
  }

  function NewestFirst(tables: Tables, ids: seq<string>): seq<Lead> {
    if ids == [] then []
    else
      var rest := NewestFirst(tables, ids[..|ids| - 1]);
      if ids[|ids| - 1] in tables.leads then [tables.leads[ids[|ids| - 1]]] + rest else rest
  }

  /** ORDER BY created_at DESC LIMIT limit OFFSET offset */
  function Page(tables: Tables, limit: nat, offset: nat): seq<Lead> {
    var all := NewestFirst(tables, tables.order);
    var from := if offset <= |all| then all[offset..] else [];
    if limit <= |from| then from[..limit] else from
  }

  /** The size of a page: the default when none is asked for, and never more than the most. */
  function Limit(limit: int, default: nat, most: nat): (n: nat)
    requires 0 < default <= most
    ensures 0 < n <= most
    ensures limit <= 0 ==> n == default
    ensures 0 < limit <= most ==> n == limit
  {
    if limit <= 0 then default else if limit > most then most else limit
  }

  function Latest(scores: seq<LeadScore>, leadId: string): Option<LeadScore> {
    if scores == [] then None
    else if scores[|scores| - 1].leadId == leadId then Some(scores[|scores| - 1])
    else Latest(scores[..|scores| - 1], leadId)
  }

  // ---------------------------------------------------------------------------------------------
  // The embedding memo
  // ---------------------------------------------------------------------------------------------

  function ContentHash(env: Env, lead: Lead): string {
    env.sha256(Content(lead))
  }

  /** ensureLeadEmbedding: the vector stored for this content, or a fresh one, stored. */
  function EnsureEmbedding(env: Env, tables: Tables, lead: Lead): (Tables, Option<Vector>) {
    var key := (lead.id, env.model);
    if key in tables.embeddings && tables.embeddings[key].contentHash == ContentHash(env, lead) then
      (tables, Some(tables.embeddings[key].vector))
    else match env.embed(Content(lead))
      case None => (tables, None)
      case Some(vector) =>
        (tables.(embeddings := tables.embeddings[key := Embedding(ContentHash(env, lead), vector)]), Some(vector))
  }

  /** FindSimilar's rows: the other leads with an embedding of this model, each with its similarity. */
  function Candidates(env: Env, tables: Tables, ids: seq<string>, leadId: string, vector: Vector): seq<Similar> {
    if ids == [] then []
    else
      var rest, id := Candidates(env, tables, ids[..|ids| - 1], leadId, vector), ids[|ids| - 1];
      if id != leadId && id in tables.leads && (id, env.model) in tables.embeddings then
        var lead := tables.leads[id];
        var similarity := env.similarity(tables.embeddings[(id, env.model)].vector, vector);
        rest + [Similar(lead.companyName, lead.status, similarity)]
      else rest
  }

  function FindSimilar(env: Env, tables: Tables, leadId: string, vector: Vector, limit: nat): seq<Similar> {
    env.nearest(Candidates(env, tables, tables.order, leadId, vector), limit)
  }

  // ---------------------------------------------------------------------------------------------
  // The service without a cache
  // ---------------------------------------------------------------------------------------------

  function PlainEmbed(env: Env, tables: Tables, id: string): (Tables, Answer) {
    match Find(tables, id)
    case None => (tables, LeadNotFound)
    case Some(lead) =>
      var (tables', vector) := EnsureEmbedding(env, tables, lead);
      (tables', if vector.Some? then Embedded(lead.id, ContentHash(env, lead)) else Answer.Failed)
  }

  function PlainSimilar(env: Env, tables: Tables, id: string, limit: int): (Tables, Answer) {
    match Find(tables, id)
    case None => (tables, LeadNotFound)
    case Some(lead) =>
      var (tables', vector) := EnsureEmbedding(env, tables, lead);
      (tables', if vector.None? then Answer.Failed
                else Neighbours(FindSimilar(env, tables', lead.id, vector.value, Limit(limit, 5, 20))))
  }

  function NewScore(lead: Lead, d: Decision, now: nat): LeadScore
    requires d.Decided?
  {
    LeadScore(lead.id, d.probability, d.reasoning, d.model, now)
  }

  function PlainScore(env: Env, tables: Tables, id: string, now: nat): (Tables, Answer) {
    match Find(tables, id)
    case None => (tables, LeadNotFound)
    case Some(lead) =>
      var (tables', found) := PlainSimilar(env, tables, id, 5);
      if !found.Neighbours? then (tables', found)
      else match env.score(lead, found.similar)
        case Decided(p, reasoning, model) =>
          if PassesCheck(p) then
            var score := NewScore(lead, Decided(Round4(p), reasoning, model), now);
            (tables'.(scores := tables'.scores + [score]), Scored(score, found.similar))
          else (tables', Answer.Failed)
        case Failed(_) => (tables', Answer.Failed)
  }

  function PlainLatest(tables: Tables, id: string): Answer {
    match Find(tables, id)
    case None => LeadNotFound
    case Some(lead) =>
      match Latest(tables.scores, lead.id)
      case None => ScoreNotFound
      case Some(score) => OneScore(score)
  }

  /** Enqueue adds a job for the lead, unless its row is refused, which is only logged. */
  function Enqueued(tables: Tables, accepts: string -> bool, id: string): Tables {
    if accepts(id) then tables.(embedJobs := tables.embedJobs + [id]) else tables
  }

  /** A new lead is embedded by a job, or at once when there is no queue. */
  function AfterCreate(env: Env, tables: Tables, id: string): Tables {
    match env.queue
    case Queue(accepts) => Enqueued(tables, accepts, id)
    case NoQueue => PlainEmbed(env, tables, id).0
  }

  function PlainCreate(env: Env, tables: Tables, input: Input, newId: string, now: nat): (Tables, Answer) {
    var normalized := Normalize(input);
    if !Acceptable(normalized) then (tables, InvalidLead)
    else if !IsFreshId(tables, newId) then (tables, Answer.Failed)
    else
      var lead := NewRow(normalized, newId, now);
      var inserted := InsertLead(tables, lead);
      (AfterCreate(env, inserted, newId), OneLead(lead))
  }

  function PlainUpdateStatus(tables: Tables, id: string, status: string, now: nat): (Tables, Answer) {
    var trimmed, wanted := TrimSpace(id), ToLower(TrimSpace(status));
    if !IsUuid(trimmed) then (tables, LeadNotFound)
    else if wanted !in ALLOWED_STATUSES then (tables, InvalidStatus)
    else match Find(tables, trimmed)
      case None => (tables, LeadNotFound)
      case Some(lead) => (SetStatus(tables, lead, wanted, now), OneLead(lead.(status := wanted, updatedAt := now)))
  }

  function Plain(env: Env, tables: Tables, r: Request): (Tables, Answer) {
    match r
    case Create(input, newId, now) => PlainCreate(env, tables, input, newId, now)
    case UpdateStatus(id, status, now) => PlainUpdateStatus(tables, id, status, now)
    case List(limit, offset) => (tables, Leads(Page(tables, Limit(limit, 20, 100), if offset < 0 then 0 else offset)))
    case Get(id) =>
      (tables, match Find(tables, TrimSpace(id)) case Some(lead) => OneLead(lead) case None => LeadNotFound)
    case Embed(id) => PlainEmbed(env, tables, TrimSpace(id))
    case SearchSimilar(id, limit) => PlainSimilar(env, tables, TrimSpace(id), limit)
    case Score(id, now) => PlainScore(env, tables, TrimSpace(id), now)
    case LatestScore(id) => (tables, PlainLatest(tables, TrimSpace(id)))
  }

  /** The answers of the service without a cache to a sequence of requests. */
  function PlainAnswers(env: Env, tables: Tables, requests: seq<Request>): seq<Answer>
    decreases |requests|
  {
    if requests == [] then []
    else
      var (tables', answer) := Plain(env, tables, requests[0]);
      [answer] + PlainAnswers(env, tables', requests[1..])
  }

  function PlainTables(env: Env, tables: Tables, requests: seq<Request>): Tables
    decreases |requests|
  {
    if requests == [] then tables else PlainTables(env, Plain(env, tables, requests[0]).0, requests[1..])
  }
}

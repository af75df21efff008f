/**
 * Scoring as the service runs it: what ScoreLead stores, over every sequence of requests, with the scorers
 * and the search that the service is put together from (internal/lead/service/service.go, cmd/worker/main.go).
 */
module ScoringPipeline {
  import opened Options
  import opened Text
  import opened Vectors
  import opened Embedder
  import opened Leads
  import opened Scoring
  import opened LeadTables
  import opened LeadService
  import opened EmbeddingMemo

  // ---------------------------------------------------------------------------------------------
  // How the service is put together
  // ---------------------------------------------------------------------------------------------

  /** LIMIT is kept, whichever rows the index finds. */
  ghost predicate SearchIsBounded(env: Env) {
    forall rows, k :: |env.nearest(rows, k)| <= k
  }

  /** And they are the nearest ones. */
  ghost predicate SearchIsExact(env: Env) {
    forall rows, k :: IsNearest(env.nearest(rows, k), rows, k)
  }

  ghost predicate ScoresLocally(env: Env, f: Formats) {
    forall lead, similar :: env.score(lead, similar) == Local(f, lead, similar)
  }

  /** The remote scorer, whatever it answers, with the local one behind it. */
  ghost predicate ScoresWithFallback(env: Env, f: Formats, remote: (Lead, seq<Similar>) -> Completion, model: string) {
    forall lead, similar ::
      env.score(lead, similar) == WithFallback(Remote(remote(lead, similar), model), Local(f, lead, similar))
  }

  // ---------------------------------------------------------------------------------------------
  // What is stored
  // ---------------------------------------------------------------------------------------------

  /** The row is what the scorer decided on the lead and at most five neighbours, unchanged by the table. */
  ghost predicate IsDecided(env: Env, row: LeadScore) {
    exists lead: Lead, similar: seq<Similar> ::
      lead.id == row.leadId && |similar| <= 5
        && env.score(lead, similar) == Decided(row.probability, row.reasoning, row.model)
  }

  ghost predicate AllDecided(env: Env, scores: seq<LeadScore>) {
    forall i :: 0 <= i < |scores| ==> IsDecided(env, scores[i])
  }

  /** Every decision is a value the column keeps as it is. */
  ghost predicate DecisionsAreStorable(env: Env) {
    forall lead, similar :: |similar| <= 5 ==> IsStorable(env.score(lead, similar))
  }

  predicate IsStorable(d: Decision) {
    d.Decided? && PassesCheck(d.probability) && Round4(d.probability) == d.probability
  }

  lemma LocalIsStorable(env: Env, f: Formats)
    requires ScoresLocally(env, f)
    ensures DecisionsAreStorable(env)
  {
    forall lead, similar: seq<Similar> | |similar| <= 5
      ensures IsStorable(env.score(lead, similar))
    {
      PipelineScore(lead, similar);
    }
  }

  lemma FallbackIsStorable(env: Env, f: Formats, remote: (Lead, seq<Similar>) -> Completion, model: string)
    requires ScoresWithFallback(env, f, remote, model)
    ensures DecisionsAreStorable(env)
  {
    forall lead, similar: seq<Similar> | |similar| <= 5
      ensures IsStorable(env.score(lead, similar))
    {
      FallbackIsAlwaysStorable(f, remote(lead, similar), model, lead, similar);
    }
  }

  /** The score of the lead now: the decision on it and on the five nearest that a search for its vector finds. */
  predicate IsScoreOf(env: Env, tables: Tables, lead: Lead, now: nat, score: LeadScore, similar: seq<Similar>) {
    var (embedded, vector) := EnsureEmbedding(env, tables, lead);
    && vector.Some? && similar == FindSimilar(env, embedded, lead.id, vector.value, 5)
    && score.leadId == lead.id && score.createdAt == now
    && env.score(lead, similar) == Decided(score.probability, score.reasoning, score.model)
  }

  /** What one ScoreLead does: it answers and adds a decided row, unless the lead or its embedding is missing. */
  lemma ScoreAddsDecision(env: Env, tables: Tables, id: string, now: nat)
    requires SearchIsBounded(env) && DecisionsAreStorable(env)
    ensures var (tables', answer) := PlainScore(env, tables, id, now);
      if Find(tables, id).Some? && EnsureEmbedding(env, tables, Find(tables, id).value).1.Some? then
        && answer.Scored? && tables'.scores == tables.scores + [answer.score] && IsDecided(env, answer.score)
        && IsScoreOf(env, tables, Find(tables, id).value, now, answer.score, answer.similar)
      else
        !answer.Scored? && tables'.scores == tables.scores
  {
    var found := Find(tables, id);
    if found.Some? && EnsureEmbedding(env, tables, found.value).1.Some? {
      var similar := PlainSimilar(env, tables, id, 5).1.similar;
      assert |similar| <= 5;
      assert IsStorable(env.score(found.value, similar));
      assert PlainScore(env, tables, id, now).1.Scored?;
    }
  }

  /** Whatever a scorer answers, what is stored is its number to four decimals, and a probability. */
  lemma StoredIsRounded(env: Env, tables: Tables, id: string, now: nat)
    ensures var (tables', answer) := PlainScore(env, tables, id, now);
      answer.Scored? ==>
        var stored, decided := answer.score.probability, env.score(Find(tables, id).value, answer.similar);
        && decided.Decided? && 0.0 <= stored <= 1.0 && IsTenThousandth(stored)
        && -0.00005 <= stored - decided.probability <= 0.00005
        && tables'.scores == tables.scores + [answer.score]
  {
    var answer := PlainScore(env, tables, id, now).1;
    if answer.Scored? {
      var p := env.score(Find(tables, id).value, answer.similar).probability;
      assert Round4(p) == TenThousandths((p * 10000.0 + 0.5).Floor);
    }
  }

  lemma RequestKeepsDecided(env: Env, tables: Tables, r: Request)
    requires SearchIsBounded(env) && DecisionsAreStorable(env) && AllDecided(env, tables.scores)
    ensures AllDecided(env, Plain(env, tables, r).0.scores)
  {
    if r.Score? {
      ScoreAddsDecision(env, tables, TrimSpace(r.id), r.now);
    } else {
      OthersAddNoScore(env, tables, r);
    }
  }

  lemma CreateAddsNoScore(env: Env, tables: Tables, input: Input, newId: string, now: nat)
    ensures PlainCreate(env, tables, input, newId, now).0.scores == tables.scores
  {
    if IsFreshId(tables, newId) {
      var inserted := InsertLead(tables, NewRow(LeadTables.Normalize(input), newId, now));
      assert PlainEmbed(env, inserted, newId).0.scores == tables.scores;
    }
  }

  lemma OthersAddNoScore(env: Env, tables: Tables, r: Request)
    requires !r.Score?
    ensures Plain(env, tables, r).0.scores == tables.scores
  {
    match r
    case Create(input, newId, now) => CreateAddsNoScore(env, tables, input, newId, now);
    case _ =>
  }

  lemma {:induction false} RunKeepsDecided(env: Env, tables: Tables, requests: seq<Request>)
    requires SearchIsBounded(env) && DecisionsAreStorable(env) && AllDecided(env, tables.scores)
    ensures AllDecided(env, PlainTables(env, tables, requests).scores)
    decreases |requests|
  {
    if requests != [] {
      RequestKeepsDecided(env, tables, requests[0]);
      RunKeepsDecided(env, Plain(env, tables, requests[0]).0, requests[1..]);
    }
  }

  predicate InRange(row: LeadScore, low: real, high: real) {
    low <= row.probability <= high
  }

  /** With the local scorer every score ever stored is in [0.15, 0.95]. */
  lemma LocalScoresInRange(env: Env, f: Formats, requests: seq<Request>)
    requires SearchIsBounded(env) && ScoresLocally(env, f)
    ensures forall row :: row in PlainTables(env, EMPTY, requests).scores ==>
      IsDecided(env, row) && InRange(row, 0.15, 0.95)
  {
    LocalIsStorable(env, f);
    RunKeepsDecided(env, EMPTY, requests);
    forall row | row in PlainTables(env, EMPTY, requests).scores
      ensures IsDecided(env, row) && InRange(row, 0.15, 0.95)
    {
      LocalRowInRange(env, f, row);
    }
  }

  lemma LocalRowInRange(env: Env, f: Formats, row: LeadScore)
    requires ScoresLocally(env, f) && IsDecided(env, row)
    ensures InRange(row, 0.15, 0.95)
  {
    var lead: Lead, similar: seq<Similar> :| lead.id == row.leadId && |similar| <= 5
      && env.score(lead, similar) == Decided(row.probability, row.reasoning, row.model);
    PipelineScore(lead, similar);
  }

  /** With the remote scorer and the fallback every score ever stored is what was decided, in [0, 1]. */
  lemma FallbackScoresInRange(env: Env, f: Formats, remote: (Lead, seq<Similar>) -> Completion, model: string,
      requests: seq<Request>)
    requires SearchIsBounded(env) && ScoresWithFallback(env, f, remote, model)
    ensures forall row :: row in PlainTables(env, EMPTY, requests).scores ==>
      IsDecided(env, row) && InRange(row, 0.0, 1.0)
  {
    FallbackIsStorable(env, f, remote, model);
    RunKeepsDecided(env, EMPTY, requests);
    forall row | row in PlainTables(env, EMPTY, requests).scores
      ensures IsDecided(env, row) && InRange(row, 0.0, 1.0)
    {
      var lead: Lead, similar: seq<Similar> :| lead.id == row.leadId && |similar| <= 5
        && env.score(lead, similar) == Decided(row.probability, row.reasoning, row.model);
      FallbackIsAlwaysStorable(f, remote(lead, similar), model, lead, similar);
    }
  }

  /** And ScoreLead never fails then but for a lead that is missing or cannot be embedded. */
  lemma FallbackNeverFails(env: Env, f: Formats, remote: (Lead, seq<Similar>) -> Completion, model: string,
      tables: Tables, id: string, now: nat)
    requires SearchIsBounded(env) && ScoresWithFallback(env, f, remote, model)
    ensures PlainScore(env, tables, id, now).1.Scored?
      <==> Find(tables, id).Some? && EnsureEmbedding(env, tables, Find(tables, id).value).1.Some?
  {
    FallbackIsStorable(env, f, remote, model);
    ScoreAddsDecision(env, tables, id, now);
  }

  /** The cached service stores no other scores: it leaves the tables of the one without a cache. */
  method ServeLocally(service: Service, f: Formats, requests: seq<Request>) returns (answers: seq<Answer>)
    requires service.Valid() && service.tables == EMPTY
    requires SearchIsBounded(service.env) && ScoresLocally(service.env, f)
    modifies service
    ensures forall row :: row in service.tables.scores ==> IsDecided(service.env, row) && InRange(row, 0.15, 0.95)
  {
    LocalScoresInRange(service.env, f, requests);
    answers := service.ServeAll(requests);
  }

  // ---------------------------------------------------------------------------------------------
  // Retrieval with the local embedder
  // ---------------------------------------------------------------------------------------------

  ghost predicate IsSquareRoot(sqrt: int -> real) {
    forall n: nat :: IsRoot(sqrt(n), n)
  }

  ghost predicate EmbedsLocally(env: Env, fnv: Hash, sqrt: int -> real) {
    forall content :: env.embed(content).Some? && IsLocal(fnv, sqrt, content, env.embed(content).value)
  }

  /** The vector is what the local embedder prints for the text. */
  predicate IsLocal(fnv: Hash, sqrt: int -> real, content: string, vector: Vector) {
    var raw := Raw(fnv, Tokens(content));
    IsPrintedVector(raw, sqrt(Norm2(raw)), vector)
  }

  /** 1 - (a <=> b): the cosine, for vectors of one length that are not zero. */
  ghost predicate ComparesByCosine(env: Env, sqrt: int -> real) {
    forall u, v :: |u| == |v| && 0 < Norm2(u) && 0 < Norm2(v) ==>
      IsCosine(u, v, sqrt(Norm2(u)), sqrt(Norm2(v)), env.similarity(u, v))
  }

  predicate IsCosine(u: Vector, v: Vector, nu: real, nv: real, cosine: real) {
    |u| == |v| && cosine * (nu * nv) == Dot(u, v) as real
  }

  lemma LocalVectorIsUsable(fnv: Hash, sqrt: int -> real, content: string, v: Vector)
    requires IsSquareRoot(sqrt) && IsLocal(fnv, sqrt, content, v)
    ensures |v| == DIMENSIONS && Striped(v) && 0 < Norm2(v)
    ensures 0.0 < sqrt(Norm2(v)) && IsRoot(sqrt(Norm2(v)), Norm2(v))
  {
    var raw := Raw(fnv, Tokens(content));
    assert IsRoot(sqrt(Norm2(raw)), Norm2(raw));
    PrintedVectorIsUsable(fnv, content, sqrt(Norm2(raw)), v);
    var i :| 0 <= i < |v| && 25_000 < Abs(v[i]);
    Norm2OfNonzero(v, i);
    assert IsRoot(sqrt(Norm2(v)), Norm2(v));
    RootIsPositive(sqrt(Norm2(v)), Norm2(v));
  }

  lemma StripedQuotient(u: Vector, v: Vector, nu: real, nv: real, n: real, cosine: real)
    requires |u| == |v| && Striped(u) && Striped(v) && n == nu * nv && cosine * n == Dot(u, v) as real
    requires 0.0 < nu && 0.0 < nv && IsRoot(nu, Norm2(u)) && IsRoot(nv, Norm2(v))
    ensures 0.0 <= cosine <= 1.0
  {
    StripedVectorsAgree(u, v);
    CosineInUnitInterval(u, v, nu, nv, n, cosine);
  }

  lemma StripedCosine(u: Vector, v: Vector, nu: real, nv: real, cosine: real)
    requires IsCosine(u, v, nu, nv, cosine) && Striped(u) && Striped(v)
    requires 0.0 < nu && 0.0 < nv && IsRoot(nu, Norm2(u)) && IsRoot(nv, Norm2(v))
    ensures 0.0 <= cosine <= 1.0
  {
    var n := nu * nv;
    StripedQuotient(u, v, nu, nv, n, cosine);
  }

  lemma LocalSimilarity(env: Env, fnv: Hash, sqrt: int -> real, a: string, b: string, u: Vector, v: Vector)
    requires IsSquareRoot(sqrt) && ComparesByCosine(env, sqrt)
    requires IsLocal(fnv, sqrt, a, u) && IsLocal(fnv, sqrt, b, v)
    ensures 0.0 <= env.similarity(u, v) <= 1.0
  {
    LocalVectorIsUsable(fnv, sqrt, a, u);
    LocalVectorIsUsable(fnv, sqrt, b, v);
    StripedCosine(u, v, sqrt(Norm2(u)), sqrt(Norm2(v)), env.similarity(u, v));
  }

  /** Every record the memo holds is the local embedder's, so every row FindSimilar chooses from is in [0, 1]. */
  lemma {:induction false} CandidatesInUnitInterval(env: Env, fnv: Hash, sqrt: int -> real, tables: Tables,
      ids: seq<string>,
      leadId: string, content: string, vector: Vector)
    requires IsSquareRoot(sqrt) && ComparesByCosine(env, sqrt) && EmbedsLocally(env, fnv, sqrt)
    requires MemoHolds(env, tables) && IsLocal(fnv, sqrt, content, vector)
    ensures forall r :: r in Candidates(env, tables, ids, leadId, vector) ==> 0.0 <= r.similarity <= 1.0
  {
    if ids != [] {
      var id := ids[|ids| - 1];
      CandidatesInUnitInterval(env, fnv, sqrt, tables, ids[..|ids| - 1], leadId, content, vector);
      if id in tables.leads && (id, env.model) in tables.embeddings {
        var stored := tables.embeddings[(id, env.model)].vector;
        LocalSimilarity(env, fnv, sqrt, Content(tables.leads[id]), content, stored, vector);
      }
    }
  }

  /** The row is that of another lead with an embedding of the model, and has the similarity of that to `vector`. */
  predicate IsRowOf(env: Env, tables: Tables, leadId: string, vector: Vector, id: string, r: Similar) {
    && id != leadId && id in tables.leads && (id, env.model) in tables.embeddings
    && r.companyName == tables.leads[id].companyName && r.status == tables.leads[id].status
    && r.similarity == env.similarity(tables.embeddings[(id, env.model)].vector, vector)
  }

  lemma {:induction false} CandidatesAreOthers(env: Env, tables: Tables, ids: seq<string>, leadId: string,
      vector: Vector, r: Similar)
    requires r in Candidates(env, tables, ids, leadId, vector)
    ensures exists id :: id in ids && IsRowOf(env, tables, leadId, vector, id, r)
  {
    var last := ids[|ids| - 1];
    if r in Candidates(env, tables, ids[..|ids| - 1], leadId, vector) {
      CandidatesAreOthers(env, tables, ids[..|ids| - 1], leadId, vector, r);
    } else {
      assert last in ids && IsRowOf(env, tables, leadId, vector, last, r);
    }
  }

  /** And each such lead has its row. */
  lemma {:induction false} OthersAreCandidates(env: Env, tables: Tables, ids: seq<string>, leadId: string,
      vector: Vector, id: string)
    requires id in ids && id != leadId && id in tables.leads && (id, env.model) in tables.embeddings
    ensures exists r :: r in Candidates(env, tables, ids, leadId, vector) && IsRowOf(env, tables, leadId, vector, id, r)
  {
    var last, rest := ids[|ids| - 1], ids[..|ids| - 1];
    if id == last {
      var all := Candidates(env, tables, ids, leadId, vector);
      var r := all[|all| - 1];
      assert r in all && IsRowOf(env, tables, leadId, vector, id, r);
    } else {
      assert id in rest;
      OthersAreCandidates(env, tables, rest, leadId, vector, id);
      var r :| r in Candidates(env, tables, rest, leadId, vector) && IsRowOf(env, tables, leadId, vector, id, r);
      assert r in Candidates(env, tables, ids, leadId, vector);
    }
  }

  /**
   * With the local embedder and an exact search, after any requests: every neighbour a search answers has a
   * similarity in [0, 1], and the score uses that of the first as it is, so the cut at zero never acts.
   */
  lemma LocalNeighbours(env: Env, fnv: Hash, sqrt: int -> real, requests: seq<Request>, id: string, limit: int)
    requires IsSquareRoot(sqrt) && ComparesByCosine(env, sqrt) && EmbedsLocally(env, fnv, sqrt) && SearchIsExact(env)
    requires Find(PlainTables(env, EMPTY, requests), id).Some?
    ensures var answer := PlainSimilar(env, PlainTables(env, EMPTY, requests), id, limit).1;
      && answer.Neighbours?
      && (forall r :: r in answer.similar ==> 0.0 <= r.similarity <= 1.0)
      && (answer.similar != [] ==> Nearness(answer.similar) == answer.similar[0].similarity)
  {
    RunKeepsMemo(env, EMPTY, requests);
    var tables := PlainTables(env, EMPTY, requests);
    var lead := Find(tables, id).value;
    EnsureIsFresh(env, tables, lead);
    var (tables', vector) := EnsureEmbedding(env, tables, lead);
    var rows := Candidates(env, tables', tables'.order, lead.id, vector.value);
    CandidatesInUnitInterval(env, fnv, sqrt, tables', tables'.order, lead.id, Content(lead), vector.value);
    NearestInUnitInterval(env.nearest(rows, Limit(limit, 5, 20)), rows, Limit(limit, 5, 20));
  }

  lemma NearestInUnitInterval(found: seq<Similar>, rows: seq<Similar>, k: nat)
    requires IsNearest(found, rows, k) && forall r :: r in rows ==> 0.0 <= r.similarity <= 1.0
    ensures forall r :: r in found ==> 0.0 <= r.similarity <= 1.0
    ensures found != [] ==> Nearness(found) == found[0].similarity
  {
    forall r | r in found
      ensures r in rows
    {
      assert r in multiset(found);
      assert r in multiset(rows);
    }
    if found != [] {
      assert found[0] in found;
      NearnessIs(found, found[0].similarity);
    }
  }
}

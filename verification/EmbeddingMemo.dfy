/** The embedding memo: what lead_embeddings holds is what embedding afresh would give. */
module EmbeddingMemo {
  import opened Options
  import opened Text
  import opened Leads
  import opened LeadTables
  import opened LeadService

  /** Each stored record is the hash and the embedding of its lead's content. */
  ghost predicate MemoHolds(env: Env, tables: Tables) {
    forall id, model :: (id, model) in tables.embeddings ==>
      && id in tables.leads
      && tables.embeddings[(id, model)].contentHash == ContentHash(env, tables.leads[id])
      && env.embed(Content(tables.leads[id])) == Some(tables.embeddings[(id, model)].vector)
  }

  /** The same leads with the same content, and perhaps more. */
  ghost predicate ContentKept(tables: Tables, tables': Tables) {
    forall id :: id in tables.leads ==> id in tables'.leads && Content(tables'.leads[id]) == Content(tables.leads[id])
  }

  /**
   * Whatever the memo answers, stored or fresh, is the embedding of the lead's content. No property of the
   * hash is needed: the record of a lead never describes any content but its own.
   */
  lemma EnsureIsFresh(env: Env, tables: Tables, lead: Lead)
    requires MemoHolds(env, tables) && lead.id in tables.leads && Content(tables.leads[lead.id]) == Content(lead)
    ensures EnsureEmbedding(env, tables, lead).1 == env.embed(Content(lead))
    ensures MemoHolds(env, EnsureEmbedding(env, tables, lead).0)
  {
  }

  /** A second call writes nothing. */
  lemma EnsureIsIdempotent(env: Env, tables: Tables, lead: Lead)
    ensures var (tables', vector) := EnsureEmbedding(env, tables, lead);
      vector.Some? ==> EnsureEmbedding(env, tables', lead) == (tables', vector)
  {
  }

  /** Nor does a call after a status update: the content is the same. */
  lemma StatusNeverReembeds(env: Env, tables: Tables, lead: Lead, status: string, now: nat)
    requires EnsureEmbedding(env, tables, lead).1.Some?
    ensures var embedded := EnsureEmbedding(env, tables, lead).0;
      var updated := SetStatus(embedded, lead, status, now);
      EnsureEmbedding(env, updated, lead.(status := status, updatedAt := now))
      == (updated, EnsureEmbedding(env, tables, lead).1)
  {
    assert Parts(lead.(status := status, updatedAt := now)) == Parts(lead);
  }

  lemma InsertKeepsMemo(env: Env, tables: Tables, lead: Lead)
    requires WellKept(tables) && MemoHolds(env, tables) && IsFreshId(tables, lead.id)
    ensures var tables' := InsertLead(tables, lead);
      WellKept(tables') && MemoHolds(env, tables') && ContentKept(tables, tables')
  {
  }

  lemma StatusKeepsMemo(env: Env, tables: Tables, id: string, status: string, now: nat)
    requires WellKept(tables) && MemoHolds(env, tables) && id in tables.leads
    ensures var tables' := SetStatus(tables, tables.leads[id], status, now);
      WellKept(tables') && MemoHolds(env, tables') && ContentKept(tables, tables')
  {
    var lead := tables.leads[id];
    assert Parts(lead.(status := status, updatedAt := now)) == Parts(lead);
  }

  lemma FindThenEnsure(env: Env, tables: Tables, id: string)
    requires WellKept(tables) && MemoHolds(env, tables)
    ensures var tables' := PlainEmbed(env, tables, id).0;
      tables'.leads == tables.leads && MemoHolds(env, tables')
  {
    if Find(tables, id).Some? {
      EnsureIsFresh(env, tables, Find(tables, id).value);
    }
  }

  lemma CreateKeepsMemo(env: Env, tables: Tables, input: Input, newId: string, now: nat)
    requires WellKept(tables) && MemoHolds(env, tables)
    ensures var tables' := PlainCreate(env, tables, input, newId, now).0;
      WellKept(tables') && MemoHolds(env, tables') && ContentKept(tables, tables')
  {
    var normalized := Normalize(input);
    if Acceptable(normalized) && IsFreshId(tables, newId) {
      var lead := NewRow(normalized, newId, now);
      InsertKeepsMemo(env, tables, lead);
      if env.queue.NoQueue? {
        FindThenEnsure(env, InsertLead(tables, lead), newId);
      }
    }
  }

  lemma ScoreKeepsMemo(env: Env, tables: Tables, id: string, now: nat)
    requires WellKept(tables) && MemoHolds(env, tables)
    ensures var tables' := PlainScore(env, tables, id, now).0;
      tables'.leads == tables.leads && MemoHolds(env, tables')
  {
    FindThenEnsure(env, tables, id);
  }

  lemma UpdateKeepsMemo(env: Env, tables: Tables, id: string, status: string, now: nat)
    requires WellKept(tables) && MemoHolds(env, tables)
    ensures var tables' := PlainUpdateStatus(tables, id, status, now).0;
      WellKept(tables') && MemoHolds(env, tables') && ContentKept(tables, tables')
  {
    if Find(tables, TrimSpace(id)).Some? {
      StatusKeepsMemo(env, tables, ToLower(TrimSpace(id)), ToLower(TrimSpace(status)), now);
    }
  }

  lemma SameLeadsAreKept(tables: Tables, tables': Tables)
    requires WellKept(tables) && tables'.leads == tables.leads
    ensures WellKept(tables') && ContentKept(tables, tables')
  {
  }

  lemma RequestKeepsMemo(env: Env, tables: Tables, r: Request)
    requires WellKept(tables) && MemoHolds(env, tables)
    ensures var tables' := Plain(env, tables, r).0;
      WellKept(tables') && MemoHolds(env, tables') && ContentKept(tables, tables')
  {
    match r
    case Create(input, newId, now) => CreateKeepsMemo(env, tables, input, newId, now);
    case UpdateStatus(id, status, now) => UpdateKeepsMemo(env, tables, id, status, now);
    case _ =>
      match r {
        case Embed(id) => FindThenEnsure(env, tables, TrimSpace(id));
        case SearchSimilar(id, _) => FindThenEnsure(env, tables, TrimSpace(id));
        case Score(id, now) => ScoreKeepsMemo(env, tables, TrimSpace(id), now);
        case _ =>
      }
      SameLeadsAreKept(tables, Plain(env, tables, r).0);
  }

  /** Over every sequence of requests the records stay what embedding afresh would give. */
  lemma {:induction false} RunKeepsMemo(env: Env, tables: Tables, requests: seq<Request>)
    requires WellKept(tables) && MemoHolds(env, tables)
    ensures MemoHolds(env, PlainTables(env, tables, requests)) && WellKept(PlainTables(env, tables, requests))
    ensures ContentKept(tables, PlainTables(env, tables, requests))
    decreases |requests|
  {
    if requests != [] {
      RequestKeepsMemo(env, tables, requests[0]);
      RunKeepsMemo(env, Plain(env, tables, requests[0]).0, requests[1..]);
    }
  }

  /** So every vector the service ever works with is the one its embedder gives for the lead as it is now. */
  lemma MemoAgreesWithRecomputation(env: Env, requests: seq<Request>, id: string)
    ensures var tables := PlainTables(env, EMPTY, requests);
      id in tables.leads ==> EnsureEmbedding(env, tables, tables.leads[id]).1 == env.embed(Content(tables.leads[id]))
  {
    RunKeepsMemo(env, EMPTY, requests);
    var tables := PlainTables(env, EMPTY, requests);
    if id in tables.leads {
      EnsureIsFresh(env, tables, tables.leads[id]);
    }
  }
}

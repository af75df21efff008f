/** A job ends as its work did: completed if and only if it succeeded, for both types of jobs. */
module WorkerOutcomes {
  import opened Options
  import opened Jobs
  import opened WorkerProtocol
  import opened WorkerInvariant

  /** Only rows that left the queue have results; a row completed with one, or failed without. */
  predicate RowOutcome(rows: Rows, results: set<string>, id: string) {
    && (id in results ==> id in rows && rows[id].status != Queued)
    && (id in rows ==> rows[id].jobType in {EMBED, SCORE})
    && (RowIs(rows, id, Completed) ==> id in results)
    && (RowIs(rows, id, Failed) ==> id !in results)
  }

  /** A job not yet worked on has no result; one worked on ends as the result says. */
  predicate WorkerOutcome(pc: Worker, results: set<string>) {
    && (pc.Claimed? || pc.Working? ==> pc.id !in results)
    && (pc.Finishing? ==> pc.status == if pc.id in results then Completed else Failed)
  }

  ghost predicate Outcomes(workers: seq<Worker>, rows: Rows, results: set<string>) {
    && (forall id :: RowOutcome(rows, results, id))
    && (forall w :: 0 <= w < |workers| ==> WorkerOutcome(workers[w], results))
  }

  ghost predicate OutcomesOf(s: State) {
    Outcomes(s.workers, s.db.rows, s.results)
  }

  lemma MoveKeepsOutcomes(workers: seq<Worker>, rows: Rows, results: set<string>, w: nat, pc: Worker)
    requires Outcomes(workers, rows, results) && w < |workers| && WorkerOutcome(pc, results)
    ensures Outcomes(workers[w := pc], rows, results)
  {
  }

  /** A row given a status that fits its result. */
  lemma WriteKeepsOutcomes(workers: seq<Worker>, rows: Rows, results: set<string>, id: string, status: Status)
    requires Outcomes(workers, rows, results) && id in rows && status != Queued
    requires status == Completed ==> id in results
    requires status == Failed ==> id !in results
    ensures Outcomes(workers, rows[id := rows[id].(status := status)], results)
  {
    var rows' := rows[id := rows[id].(status := status)];
    forall i
      ensures RowOutcome(rows', results, i)
    {
      assert RowOutcome(rows, results, i);
    }
  }

  lemma InsertKeepsOutcomes(workers: seq<Worker>, rows: Rows, results: set<string>, id: string, row: Row)
    requires Outcomes(workers, rows, results) && id !in rows && row.status == Queued && row.jobType in {EMBED, SCORE}
    ensures Outcomes(workers, rows[id := row], results)
  {
    var rows' := rows[id := row];
    forall i
      ensures RowOutcome(rows', results, i)
    {
      assert RowOutcome(rows, results, i);
    }
  }

  /** The only worker with the job in hand gets its result. */
  lemma ResultKeepsOutcomes(workers: seq<Worker>, rows: Rows, results: set<string>, w: nat, id: string)
    requires Outcomes(workers, rows, results) && Owned(workers, rows) && w < |workers| && workers[w] == Working(id)
    ensures Outcomes(workers[w := Finishing(id, Completed)], rows, results + {id})
  {
    assert RowIs(rows, id, Running);
    forall i
      ensures RowOutcome(rows, results + {id}, i)
    {
      assert RowOutcome(rows, results, i);
    }
    forall v | 0 <= v < |workers| && v != w
      ensures WorkerOutcome(workers[v], results + {id})
    {
      assert WorkerOutcome(workers[v], results);
      assert InHand(workers[v]) ==> workers[v].id != id;
    }
  }

  lemma ClaimKeepsOutcomes(s: State, w: nat, reply: Reply)
    requires OutcomesOf(s) && OnePath(s.db.rows, s.history) && w < |s.workers| && s.workers[w].Popped?
    ensures OutcomesOf(StepClaim(s, w, reply))
  {
    var id := s.workers[w].id;
    if reply == Dropped || !HasStatus(s.db, id, Queued) {
      MoveKeepsOutcomes(s.workers, s.db.rows, s.results, w, Idle);
    } else {
      assert RowOutcome(s.db.rows, s.results, id);
      WriteKeepsOutcomes(s.workers, s.db.rows, s.results, id, Running);
      var rows' := s.db.rows[id := s.db.rows[id].(status := Running)];
      MoveKeepsOutcomes(s.workers, rows', s.results, w, if reply == Seen then Claimed(id) else Idle);
    }
  }

  lemma ExecuteKeepsOutcomes(s: State, w: nat, success: bool)
    requires OutcomesOf(s) && Owned(s.workers, s.db.rows) && w < |s.workers| && s.workers[w].Working?
    ensures OutcomesOf(StepExecute(s, w, success))
  {
    var id := s.workers[w].id;
    assert RowIs(s.db.rows, id, Running) && RowOutcome(s.db.rows, s.results, id);
    assert WorkerOutcome(s.workers[w], s.results);
    if success {
      ResultKeepsOutcomes(s.workers, s.db.rows, s.results, w, id);
    } else {
      MoveKeepsOutcomes(s.workers, s.db.rows, s.results, w, Finishing(id, Failed));
    }
  }

  lemma FinishKeepsOutcomes(s: State, w: nat, reply: Reply)
    requires OutcomesOf(s) && Ownership(s) && w < |s.workers| && s.workers[w].Finishing?
    ensures OutcomesOf(StepFinish(s, w, reply))
  {
    var id, status := s.workers[w].id, s.workers[w].status;
    assert RowIs(s.db.rows, id, Running) && WorkerOutcome(s.workers[w], s.results);
    if reply == Dropped {
      MoveKeepsOutcomes(s.workers, s.db.rows, s.results, w, Idle);
    } else {
      WriteKeepsOutcomes(s.workers, s.db.rows, s.results, id, status);
      var rows' := s.db.rows[id := s.db.rows[id].(status := status)];
      MoveKeepsOutcomes(s.workers, rows', s.results, w, if reply == Seen then Announcing(id, status) else Idle);
    }
  }

  /** Steps that give no row a status and no job a result. */
  lemma QuietStepKeepsOutcomes(s: State, a: Action)
    requires OutcomesOf(s) && !a.Insert? && !a.Claim? && !a.Execute? && !a.Finish?
    ensures OutcomesOf(Step(s, a))
  {
    match a
    case PushId(p, delivery) =>
      assert Step(s, a).workers == s.workers && Step(s, a).db.rows == s.db.rows && Step(s, a).results == s.results;
    case AnnounceQueued(p, up) =>
      assert Step(s, a).workers == s.workers && Step(s, a).db.rows == s.db.rows && Step(s, a).results == s.results;
    case PopId(w, answered) =>
      if w < |s.workers| && s.workers[w].Idle? && s.db.queue != [] && answered {
        MoveKeepsOutcomes(s.workers, s.db.rows, s.results, w, Popped(Tail(s.db)));
      }
    case AnnounceRunning(w, up) =>
      if w < |s.workers| && s.workers[w].Claimed? {
        assert WorkerOutcome(s.workers[w], s.results);
        MoveKeepsOutcomes(s.workers, s.db.rows, s.results, w, Working(s.workers[w].id));
      }
    case AnnounceEnd(w, up) =>
      if w < |s.workers| && s.workers[w].Announcing? {
        MoveKeepsOutcomes(s.workers, s.db.rows, s.results, w, Idle);
      }
    case Crash(w) =>
      if w < |s.workers| {
        MoveKeepsOutcomes(s.workers, s.db.rows, s.results, w, Idle);
      }
  }

  lemma StepKeepsOutcomes(s: State, a: Action)
    requires OutcomesOf(s) && Ownership(s)
    ensures OutcomesOf(Step(s, a))
  {
    match a
    case Insert(id, jobType, leadId) =>
      if Insertable(s.db, id, jobType) {
        InsertKeepsOutcomes(s.workers, s.db.rows, s.results, id, Row(jobType, leadId, Queued));
      }
    case Claim(w, reply) => if w < |s.workers| && s.workers[w].Popped? { ClaimKeepsOutcomes(s, w, reply); }
    case Execute(w, success) => if w < |s.workers| && s.workers[w].Working? { ExecuteKeepsOutcomes(s, w, success); }
    case Finish(w, reply) => if w < |s.workers| && s.workers[w].Finishing? { FinishKeepsOutcomes(s, w, reply); }
    case _ => QuietStepKeepsOutcomes(s, a);
  }

  /** A job has a result from the moment that its work succeeds, and from nothing else. */
  lemma ResultsAreSuccesses(s: State, a: Action)
    ensures Step(s, a).results == if a.Execute? && a.success && a.worker < |s.workers| && s.workers[a.worker].Working?
      then s.results + {s.workers[a.worker].id} else s.results
  {
  }

  lemma {:induction false} ExecKeepsOutcomes(s: State, actions: seq<Action>)
    requires OutcomesOf(s) && Inv(s)
    ensures OutcomesOf(Exec(s, actions))
    decreases |actions|
  {
    if actions != [] {
      StepKeepsOutcomes(s, actions[0]);
      StepKeepsInv(s, actions[0]);
      ExecKeepsOutcomes(Step(s, actions[0]), actions[1..]);
    }
  }
}

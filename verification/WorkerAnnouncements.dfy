/** Every status a job is given is announced: without faults, when all is done, the log tells each job's whole path. */
module WorkerAnnouncements {
  import opened Options
  import opened Jobs
  import opened WorkerProtocol
  import opened WorkerInvariant
  import opened WorkerResults

  /** The enqueuer of the job has yet to announce it. */
  predicate WillAnnounce(p: Producer, id: string) {
    !p.Done? && p.id == id
  }

  predicate QueuedIsDue(producers: seq<Producer>, events: seq<Event>, id: string) {
    Said(events, id, Queued) || exists p :: 0 <= p < |producers| && WillAnnounce(producers[p], id)
  }

  /** What a worker is about to announce. */
  predicate IsAbout(pc: Worker, id: string, status: Status) {
    pc == if status == Running then Claimed(id) else Announcing(id, status)
  }

  predicate IsDue(workers: seq<Worker>, events: seq<Event>, id: string, status: Status) {
    Said(events, id, status) || exists w :: 0 <= w < |workers| && IsAbout(workers[w], id, status)
  }

  /** Every status the row has been given is announced, or someone is about to announce it. */
  predicate RowIsDue(producers: seq<Producer>, workers: seq<Worker>, events: seq<Event>, rows: Rows, id: string) {
    id in rows ==>
      && QueuedIsDue(producers, events, id)
      && (rows[id].status != Queued ==> IsDue(workers, events, id, Running))
      && (Terminal(rows[id].status) ==> IsDue(workers, events, id, rows[id].status))
  }

  ghost predicate AllDue(s: State) {
    forall id :: RowIsDue(s.producers, s.workers, s.db.events, s.db.rows, id)
  }

  /** A step without a fault, whose announcement is delivered. */
  predicate Delivers(a: Action) {
    FaultFree(a) && (IsAnnouncement(a) ==> a.reachable)
  }

  lemma SaidOnceMore(events: seq<Event>, e: Event, id: string, status: Status)
    ensures Said(events, id, status) ==> Said(events + [e], id, status)
    ensures Said(events + [e], e.jobId, e.status)
  {
    assert (events + [e])[|events|] == e;
    if Said(events, id, status) {
      var i :| 0 <= i < |events| && events[i].jobId == id && events[i].status == status;
      assert (events + [e])[i] == events[i];
    }
  }

  // Workers

  /** A worker that is not about to announce anything moves on. */
  lemma MoveKeepsDue(workers: seq<Worker>, events: seq<Event>, w: nat, pc: Worker, id: string, status: Status)
    requires w < |workers| && !workers[w].Claimed? && !workers[w].Announcing? && IsDue(workers, events, id, status)
    ensures IsDue(workers[w := pc], events, id, status)
  {
    if !Said(events, id, status) {
      var v :| 0 <= v < |workers| && IsAbout(workers[v], id, status);
      assert workers[w := pc][v] == workers[v];
    }
  }

  /** A worker announces what it was about to, and moves on. */
  lemma AnnounceKeepsDue(workers: seq<Worker>, events: seq<Event>, w: nat, pc: Worker, e: Event, id: string,
      status: Status)
    requires w < |workers| && IsAbout(workers[w], e.jobId, e.status) && e.status != Queued && status != Queued
    requires IsDue(workers, events, id, status)
    ensures IsDue(workers[w := pc], events + [e], id, status)
  {
    SaidOnceMore(events, e, id, status);
    if !Said(events, id, status) {
      var v :| 0 <= v < |workers| && IsAbout(workers[v], id, status);
      if v != w {
        assert workers[w := pc][v] == workers[v];
      }
    }
  }

  lemma QueuedStaysDue(producers: seq<Producer>, events: seq<Event>, e: Event, id: string)
    requires QueuedIsDue(producers, events, id)
    ensures QueuedIsDue(producers, events + [e], id)
  {
    SaidOnceMore(events, e, id, Queued);
  }

  lemma WorkerMovesOn(s: State, next: State, w: nat, pc: Worker)
    requires AllDue(s) && w < |s.workers| && !s.workers[w].Claimed? && !s.workers[w].Announcing?
    requires next.workers == s.workers[w := pc] && next.producers == s.producers
    requires next.db.events == s.db.events && next.db.rows == s.db.rows
    ensures AllDue(next)
  {
    forall id
      ensures RowIsDue(next.producers, next.workers, next.db.events, next.db.rows, id)
    {
      assert RowIsDue(s.producers, s.workers, s.db.events, s.db.rows, id);
      if id in s.db.rows {
        if s.db.rows[id].status != Queued { MoveKeepsDue(s.workers, s.db.events, w, pc, id, Running); }
        if Terminal(s.db.rows[id].status) { MoveKeepsDue(s.workers, s.db.events, w, pc, id, s.db.rows[id].status); }
      }
    }
  }

  /** A worker gives a row a status and is about to announce it. */
  lemma WriteMakesDue(s: State, next: State, w: nat, id: string, status: Status)
    requires AllDue(s) && w < |s.workers| && !s.workers[w].Claimed? && !s.workers[w].Announcing?
    requires RowIs(s.db.rows, id, if status == Running then Queued else Running)
    requires status == Running || Terminal(status)
    requires next.workers == s.workers[w := if status == Running then Claimed(id) else Announcing(id, status)]
    requires next.producers == s.producers && next.db.events == s.db.events
    requires next.db.rows == s.db.rows[id := s.db.rows[id].(status := status)]
    ensures AllDue(next)
  {
    var pc := next.workers[w];
    assert IsAbout(next.workers[w], id, status);
    forall i
      ensures RowIsDue(next.producers, next.workers, next.db.events, next.db.rows, i)
    {
      assert RowIsDue(s.producers, s.workers, s.db.events, s.db.rows, i);
      if i in s.db.rows {
        if s.db.rows[i].status != Queued { MoveKeepsDue(s.workers, s.db.events, w, pc, i, Running); }
        if Terminal(s.db.rows[i].status) { MoveKeepsDue(s.workers, s.db.events, w, pc, i, s.db.rows[i].status); }
      }
    }
  }

  lemma WorkerAnnounces(s: State, next: State, w: nat, pc: Worker, e: Event)
    requires AllDue(s) && w < |s.workers| && IsAbout(s.workers[w], e.jobId, e.status) && e.status != Queued
    requires next.workers == s.workers[w := pc] && next.producers == s.producers
    requires next.db.events == s.db.events + [e] && next.db.rows == s.db.rows
    ensures AllDue(next)
  {
    forall id
      ensures RowIsDue(next.producers, next.workers, next.db.events, next.db.rows, id)
    {
      assert RowIsDue(s.producers, s.workers, s.db.events, s.db.rows, id);
      if id in s.db.rows {
        QueuedStaysDue(s.producers, s.db.events, e, id);
        if s.db.rows[id].status != Queued { AnnounceKeepsDue(s.workers, s.db.events, w, pc, e, id, Running); }
        if Terminal(s.db.rows[id].status) {
          AnnounceKeepsDue(s.workers, s.db.events, w, pc, e, id, s.db.rows[id].status);
        }
      }
    }
  }

  // Producers

  lemma InsertMakesDue(s: State, id: string, jobType: string, leadId: string)
    requires AllDue(s) && Insertable(s.db, id, jobType)
    ensures AllDue(StepInsert(s, id, jobType, leadId))
  {
    var next := StepInsert(s, id, jobType, leadId);
    assert WillAnnounce(next.producers[|s.producers|], id);
    forall i
      ensures RowIsDue(next.producers, next.workers, next.db.events, next.db.rows, i)
    {
      assert RowIsDue(s.producers, s.workers, s.db.events, s.db.rows, i);
      if i in s.db.rows && !Said(s.db.events, i, Queued) {
        var p :| 0 <= p < |s.producers| && WillAnnounce(s.producers[p], i);
        assert next.producers[p] == s.producers[p];
      }
    }
  }

  lemma PushKeepsDue(s: State, p: nat, delivery: Delivery)
    requires AllDue(s) && p < |s.producers| && s.producers[p].Inserted?
    ensures AllDue(StepPush(s, p, delivery))
  {
    var next := StepPush(s, p, delivery);
    forall i
      ensures RowIsDue(next.producers, next.workers, next.db.events, next.db.rows, i)
    {
      assert RowIsDue(s.producers, s.workers, s.db.events, s.db.rows, i);
      if i in s.db.rows && !Said(s.db.events, i, Queued) {
        var q :| 0 <= q < |s.producers| && WillAnnounce(s.producers[q], i);
        assert WillAnnounce(next.producers[q], i);
      }
    }
  }

  lemma ProducerAnnounces(s: State, p: nat)
    requires AllDue(s) && p < |s.producers| && s.producers[p].Pushed? && s.producers[p].id in s.db.rows
    ensures AllDue(StepAnnounceQueued(s, p, true))
  {
    var id, next := s.producers[p].id, StepAnnounceQueued(s, p, true);
    var e := Event(id, s.db.rows[id].leadId, s.db.rows[id].jobType, Queued);
    forall i
      ensures RowIsDue(next.producers, next.workers, next.db.events, next.db.rows, i)
    {
      assert RowIsDue(s.producers, s.workers, s.db.events, s.db.rows, i);
      SaidOnceMore(s.db.events, e, i, Queued);
      SaidOnceMore(s.db.events, e, i, Running);
      if i in s.db.rows {
        SaidOnceMore(s.db.events, e, i, s.db.rows[i].status);
        if !Said(s.db.events, i, Queued) {
          var q :| 0 <= q < |s.producers| && WillAnnounce(s.producers[q], i);
          assert q != p ==> WillAnnounce(next.producers[q], i);
        }
      }
    }
  }

  // Steps

  lemma ProducerStepKeepsDue(s: State, a: Action)
    requires AllDue(s) && Inv(s) && Delivers(a) && (a.Insert? || a.PushId? || a.AnnounceQueued?)
    ensures AllDue(Step(s, a))
  {
    match a
    case Insert(id, jobType, leadId) => if Insertable(s.db, id, jobType) { InsertMakesDue(s, id, jobType, leadId); }
    case PushId(p, delivery) => if p < |s.producers| && s.producers[p].Inserted? { PushKeepsDue(s, p, delivery); }
    case AnnounceQueued(p, _) =>
      if p < |s.producers| && s.producers[p].Pushed? {
        assert ProducerMayAnnounce(s.producers[p], s.db.rows, s.db.events);
        ProducerAnnounces(s, p);
      }
  }

  lemma ClaimMakesDue(s: State, w: nat)
    requires AllDue(s) && Ownership(s) && w < |s.workers| && s.workers[w].Popped?
    ensures AllDue(StepClaim(s, w, Seen))
  {
    var id, next := s.workers[w].id, StepClaim(s, w, Seen);
    if HasStatus(s.db, id, Queued) {
      WriteMakesDue(s, next, w, id, Running);
    } else {
      WorkerMovesOn(s, next, w, Idle);
    }
  }

  lemma RunningIsAnnounced(s: State, w: nat)
    requires AllDue(s) && Ownership(s) && w < |s.workers| && s.workers[w].Claimed?
    ensures AllDue(StepAnnounceRunning(s, w, true))
  {
    var id := s.workers[w].id;
    assert RowIs(s.db.rows, id, Running);
    var e := Event(id, s.db.rows[id].leadId, s.db.rows[id].jobType, Running);
    WorkerAnnounces(s, StepAnnounceRunning(s, w, true), w, Working(id), e);
  }

  lemma EndIsAnnounced(s: State, w: nat)
    requires AllDue(s) && Causality(s) && w < |s.workers| && s.workers[w].Announcing?
    ensures AllDue(StepAnnounceEnd(s, w, true))
  {
    var id, status := s.workers[w].id, s.workers[w].status;
    assert WorkerMayAnnounce(s.workers[w], s.db.rows, s.db.events);
    var e := Event(id, s.db.rows[id].leadId, s.db.rows[id].jobType, status);
    WorkerAnnounces(s, StepAnnounceEnd(s, w, true), w, Idle, e);
  }

  lemma FinishMakesDue(s: State, w: nat)
    requires AllDue(s) && Ownership(s) && w < |s.workers| && s.workers[w].Finishing?
    ensures AllDue(StepFinish(s, w, Seen))
  {
    var id, status := s.workers[w].id, s.workers[w].status;
    assert RowIs(s.db.rows, id, Running) && Terminal(status);
    WriteMakesDue(s, StepFinish(s, w, Seen), w, id, status);
  }

  lemma WorkerStepKeepsDue(s: State, a: Action)
    requires AllDue(s) && Inv(s) && Delivers(a) && !a.Insert? && !a.PushId? && !a.AnnounceQueued?
    ensures AllDue(Step(s, a))
  {
    match a
    case PopId(w, _) =>
      if w < |s.workers| && s.workers[w].Idle? && s.db.queue != [] {
        WorkerMovesOn(s, StepPop(s, w, true), w, Popped(Tail(s.db)));
      }
    case Claim(w, _) => if w < |s.workers| && s.workers[w].Popped? { ClaimMakesDue(s, w); }
    case AnnounceRunning(w, _) => if w < |s.workers| && s.workers[w].Claimed? { RunningIsAnnounced(s, w); }
    case Execute(w, success) =>
      if w < |s.workers| && s.workers[w].Working? {
        WorkerMovesOn(s, StepExecute(s, w, success), w, StepExecute(s, w, success).workers[w]);
      }
    case Finish(w, _) => if w < |s.workers| && s.workers[w].Finishing? { FinishMakesDue(s, w); }
    case AnnounceEnd(w, _) => if w < |s.workers| && s.workers[w].Announcing? { EndIsAnnounced(s, w); }
  }

  lemma {:induction false} ExecKeepsDue(s: State, actions: seq<Action>)
    requires AllDue(s) && Inv(s) && forall a :: a in actions ==> Delivers(a)
    ensures AllDue(Exec(s, actions))
    decreases |actions|
  {
    if actions != [] {
      StepKeepsInv(s, actions[0]);
      if actions[0].Insert? || actions[0].PushId? || actions[0].AnnounceQueued? {
        ProducerStepKeepsDue(s, actions[0]);
      } else {
        WorkerStepKeepsDue(s, actions[0]);
      }
      ExecKeepsDue(Step(s, actions[0]), actions[1..]);
    }
  }

  /** In every run without faults each status a job was given is announced, unless someone is still about to. */
  lemma StatusesAreDue(workers: nat, actions: seq<Action>, id: string)
    requires forall a :: a in actions ==> Delivers(a)
    ensures var s := Exec(Start(workers), actions); RowIsDue(s.producers, s.workers, s.db.events, s.db.rows, id)
  {
    StartKeepsInv(workers);
    assert AllDue(Start(workers));
    ExecKeepsDue(Start(workers), actions);
    assert AllDue(Exec(Start(workers), actions));
  }

  /**
   * When the enqueuers are done and the workers at rest, every job is completed or failed, and the log has
   * its queued, its running and that end.
   */
  lemma DrainAnnouncesEveryJob(workers: nat, actions: seq<Action>, id: string)
    requires 0 < workers && forall a :: a in actions ==> Delivers(a)
    requires var s := Exec(Start(workers), actions); Quiescent(s) && forall p :: p in s.producers ==> p.Done?
    ensures var s := Exec(Start(workers), actions);
      id in s.db.rows ==>
        && Terminal(s.db.rows[id].status)
        && Said(s.db.events, id, Queued) && Said(s.db.events, id, Running)
          && Said(s.db.events, id, s.db.rows[id].status)
  {
    var s := Exec(Start(workers), actions);
    DrainEndsEveryJob(workers, actions, id);
    StatusesAreDue(workers, actions, id);
    WorkersStay(Start(workers), actions);
    forall w | 0 <= w < |s.workers|
      ensures s.workers[w].Idle?
    {
      QuiescentWorkersAreIdle(s, w);
    }
  }
}

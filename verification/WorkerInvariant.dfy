/** What every step of the enqueuers and workers keeps: ownership, conservation, order, causality. */
module WorkerInvariant {
  import opened Options
  import opened Jobs
  import opened WorkerProtocol

  // ---------------------------------------------------------------------------------------------
  // Ownership: a running row in hand belongs to one worker, so the unguarded updates are safe
  // ---------------------------------------------------------------------------------------------

  /** A claimed job whose row the worker is still to update. */
  predicate InHand(pc: Worker) {
    pc.Claimed? || pc.Working? || pc.Finishing?
  }

  predicate Terminal(status: Status) {
    status == Completed || status == Failed
  }

  /** The statuses a row has been given when it now has `status`. */
  function Path(status: Status): seq<Status> {
    match status
    case Queued => [Queued]
    case Running => [Queued, Running]
    case _ => [Queued, Running, status]
  }

  type Rows = map<string, Row>

  predicate RowIs(rows: Rows, id: string, status: Status) {
    id in rows && rows[id].status == status
  }

  /** Each job in hand is running, and in one worker's hands only. */
  ghost predicate Owned(workers: seq<Worker>, rows: Rows) {
    && (forall w :: 0 <= w < |workers| && InHand(workers[w]) ==> RowIs(rows, workers[w].id, Running))
    && (forall w, v :: 0 <= w < v < |workers| && InHand(workers[w]) && InHand(workers[v]) ==>
          workers[w].id != workers[v].id)
    && (forall w :: 0 <= w < |workers| && workers[w].Finishing? ==> Terminal(workers[w].status))
  }

  ghost predicate OnePath(rows: Rows, history: map<string, seq<Status>>) {
    && history.Keys == rows.Keys
    && (forall id :: id in rows ==> history[id] == Path(rows[id].status))
  }

  ghost predicate ClaimedOnce(rows: Rows, claims: seq<string>) {
    forall id :: multiset(claims)[id] == if id !in rows || rows[id].status == Queued then 0 else 1
  }

  // ---------------------------------------------------------------------------------------------
  // Conservation: every copy of an id is accounted for
  // ---------------------------------------------------------------------------------------------

  function Is(o: Option<string>, id: string): nat {
    if o == Some(id) then 1 else 0
  }

  /** How many of `xs` stand for `id`. */
  function Tally<T>(xs: seq<T>, idOf: T -> Option<string>, id: string): nat {
    if xs == [] then 0 else Is(idOf(xs[0]), id) + Tally(xs[1..], idOf, id)
  }

  lemma {:induction false} TallyUpdated<T>(xs: seq<T>, i: nat, x: T, idOf: T -> Option<string>, id: string)
    requires i < |xs|
    ensures Tally(xs[i := x], idOf, id) == Tally(xs, idOf, id) - Is(idOf(xs[i]), id) + Is(idOf(x), id)
  {
    if i == 0 {
      assert xs[i := x][1..] == xs[1..];
    } else {
      assert xs[i := x][1..] == xs[1..][i - 1 := x];
      TallyUpdated(xs[1..], i - 1, x, idOf, id);
    }
  }

  lemma {:induction false} TallyAppended<T>(xs: seq<T>, x: T, idOf: T -> Option<string>, id: string)
    ensures Tally(xs + [x], idOf, id) == Tally(xs, idOf, id) + Is(idOf(x), id)
  {
    if xs == [] {
      assert xs + [x] == [x];
    } else {
      assert (xs + [x])[1..] == xs[1..] + [x];
      TallyAppended(xs[1..], x, idOf, id);
    }
  }

  /** The row whose push is still to come. */
  function ToPush(p: Producer): Option<string> {
    if p.Inserted? then Some(p.id) else None
  }

  /** The id popped and not claimed yet. */
  function ToClaim(pc: Worker): Option<string> {
    if pc.Popped? then Some(pc.id) else None
  }

  function Held(pc: Worker): Option<string> {
    if InHand(pc) then Some(pc.id) else None
  }

  /** Copies of an id in the list, or between a producer or a worker and the list. */
  function Copies(s: State, id: string): nat {
    multiset(s.db.queue)[id] + Tally(s.producers, ToPush, id) + Tally(s.workers, ToClaim, id)
  }

  /** Every copy of an id is somewhere, or is a recorded fault, or was used up by a claim. */
  ghost predicate CopiesBalance(s: State, id: string) {
    Copies(s, id) + s.ledger.lost[id] + s.ledger.consumed[id]
      == (if id in s.db.rows then 1 else 0) + s.ledger.doubled[id]
  }

  /** Every running row is in one worker's hands or is a recorded fault. */
  ghost predicate HandsBalance(s: State, id: string) {
    Tally(s.workers, Held, id) + s.ledger.stranded[id] == if RowIs(s.db.rows, id, Running) then 1 else 0
  }

  /** A queued row has not been claimed, and only rows are ever pushed. */
  ghost predicate LedgerFits(s: State, id: string) {
    && (RowIs(s.db.rows, id, Queued) ==> s.ledger.consumed[id] == 0)
    && (id in s.ledger.doubled ==> id in s.db.rows)
  }

  ghost predicate Conserved(s: State) {
    forall id :: CopiesBalance(s, id) && HandsBalance(s, id) && LedgerFits(s, id)
  }

  ghost predicate FirstInFirstOut(s: State) {
    s.pushes == s.pops + Reversed(s.db.queue)
  }

  lemma {:induction false} LastIsFirst(queue: seq<string>)
    requires queue != []
    ensures Reversed(queue) == [queue[|queue| - 1]] + Reversed(queue[..|queue| - 1])
  {
    if |queue| > 1 {
      LastIsFirst(queue[1..]);
      assert queue[1..][..|queue| - 2] == queue[..|queue| - 1][1..];
    }
  }

  // ---------------------------------------------------------------------------------------------
  // Causality: what an announcement says is true, and nothing is announced twice
  // ---------------------------------------------------------------------------------------------

  predicate Unsaid(events: seq<Event>, id: string, status: Status) {
    forall i :: 0 <= i < |events| ==> !(events[i].jobId == id && events[i].status == status)
  }

  predicate NotOver(events: seq<Event>, id: string) {
    forall i :: 0 <= i < |events| ==> !(events[i].jobId == id && Terminal(events[i].status))
  }

  /** An announcement matches its row, and comes no earlier than the status it announces. */
  predicate EventIsTrue(rows: Rows, e: Event) {
    && e.jobId in rows
    && e.leadId == rows[e.jobId].leadId && e.jobType == rows[e.jobId].jobType
    && (Terminal(e.status) ==> rows[e.jobId].status == e.status)
    && (e.status == Running ==> rows[e.jobId].status != Queued)
  }

  /** Per job, each status at most once, and running before the end. */
  predicate EventsInOrder(events: seq<Event>) {
    forall i, j :: 0 <= i < j < |events| && events[i].jobId == events[j].jobId ==>
      events[i].status != events[j].status && (Terminal(events[i].status) ==> events[j].status == Queued)
  }

  ghost predicate EventsOk(rows: Rows, events: seq<Event>) {
    && EventsInOrder(events)
    && (forall i :: 0 <= i < |events| ==> EventIsTrue(rows, events[i]))
  }

  /** What a worker is about to announce is true and new. */
  predicate WorkerMayAnnounce(pc: Worker, rows: Rows, events: seq<Event>) {
    && (pc.Claimed? ==> Unsaid(events, pc.id, Running))
    && (pc.Announcing? ==> Terminal(pc.status) && RowIs(rows, pc.id, pc.status) && NotOver(events, pc.id))
  }

  ghost predicate WorkersMayAnnounce(workers: seq<Worker>, rows: Rows, events: seq<Event>) {
    && (forall w :: 0 <= w < |workers| ==> WorkerMayAnnounce(workers[w], rows, events))
    && (forall w, v :: 0 <= w < v < |workers| && workers[w].Announcing? && workers[v].Announcing? ==>
          workers[w].id != workers[v].id)
  }

  predicate ProducerMayAnnounce(p: Producer, rows: Rows, events: seq<Event>) {
    !p.Done? ==> p.id in rows && Unsaid(events, p.id, Queued)
  }

  ghost predicate ProducersMayAnnounce(producers: seq<Producer>, rows: Rows, events: seq<Event>) {
    && (forall p :: 0 <= p < |producers| ==> ProducerMayAnnounce(producers[p], rows, events))
    && (forall p, q :: 0 <= p < q < |producers| && !producers[p].Done? && !producers[q].Done? ==>
          producers[p].id != producers[q].id)
  }

  // ---------------------------------------------------------------------------------------------
  // The invariant
  // ---------------------------------------------------------------------------------------------

  ghost predicate Ownership(s: State) {
    Owned(s.workers, s.db.rows) && OnePath(s.db.rows, s.history) && ClaimedOnce(s.db.rows, s.claims)
  }

  ghost predicate Causality(s: State) {
    && EventsOk(s.db.rows, s.db.events)
    && WorkersMayAnnounce(s.workers, s.db.rows, s.db.events)
    && ProducersMayAnnounce(s.producers, s.db.rows, s.db.events)
  }

  ghost predicate Inv(s: State) {
    Ownership(s) && Conserved(s) && FirstInFirstOut(s) && Causality(s)
  }

  /** A worker drops its job or hands it to its own next stage. */
  lemma HandOnKeepsOwned(workers: seq<Worker>, rows: Rows, w: nat, pc: Worker)
    requires Owned(workers, rows) && w < |workers|
    requires InHand(pc) ==> InHand(workers[w]) && pc.id == workers[w].id
    requires pc.Finishing? ==> Terminal(pc.status)
    ensures Owned(workers[w := pc], rows)
  {
  }

  /** A row nobody can have in hand, because it is queued, starts running and goes to `w` or to nobody. */
  lemma TakeKeepsOwned(workers: seq<Worker>, rows: Rows, w: nat, pc: Worker, id: string)
    requires Owned(workers, rows) && w < |workers| && RowIs(rows, id, Queued)
    requires pc == Claimed(id) || pc == Idle
    ensures Owned(workers[w := pc], rows[id := rows[id].(status := Running)])
  {
  }

  /** The only worker with the row in hand updates it and lets go. */
  lemma ReleaseKeepsOwned(workers: seq<Worker>, rows: Rows, w: nat, pc: Worker, status: Status)
    requires Owned(workers, rows) && w < |workers| && InHand(workers[w]) && !InHand(pc)
    ensures workers[w].id in rows
    ensures Owned(workers[w := pc], rows[workers[w].id := rows[workers[w].id].(status := status)])
  {
  }

  lemma WorkerKeepsAnnouncing(workers: seq<Worker>, rows: Rows, events: seq<Event>, w: nat, pc: Worker)
    requires WorkersMayAnnounce(workers, rows, events) && w < |workers| && WorkerMayAnnounce(pc, rows, events)
    requires pc.Announcing? ==>
      forall v :: 0 <= v < |workers| && v != w && workers[v].Announcing? ==> workers[v].id != pc.id
    ensures WorkersMayAnnounce(workers[w := pc], rows, events)
  {
  }

  lemma WriteKeepsEvents(rows: Rows, events: seq<Event>, id: string, status: Status)
    requires EventsOk(rows, events) && id in rows && !Terminal(rows[id].status) && status != Queued
    ensures EventsOk(rows[id := rows[id].(status := status)], events)
  {
    var rows' := rows[id := rows[id].(status := status)];
    forall i | 0 <= i < |events|
      ensures EventIsTrue(rows', events[i])
    {
      assert EventIsTrue(rows, events[i]);
    }
  }

  /** A status write to a row that is not over takes nothing from the workers announcing other rows. */
  lemma WriteKeepsAnnouncing(workers: seq<Worker>, rows: Rows, events: seq<Event>, id: string, status: Status)
    requires WorkersMayAnnounce(workers, rows, events) && id in rows && !Terminal(rows[id].status)
    ensures WorkersMayAnnounce(workers, rows[id := rows[id].(status := status)], events)
  {
    var rows' := rows[id := rows[id].(status := status)];
    forall w | 0 <= w < |workers|
      ensures WorkerMayAnnounce(workers[w], rows', events)
    {
      assert WorkerMayAnnounce(workers[w], rows, events);
    }
  }

  lemma PublishKeepsEvents(rows: Rows, events: seq<Event>, e: Event)
    requires EventsOk(rows, events) && EventIsTrue(rows, e) && Unsaid(events, e.jobId, e.status)
    requires e.status != Queued ==> NotOver(events, e.jobId)
    ensures EventsOk(rows, events + [e])
  {
  }

  /** A worker publishes what only it may announce, and then no longer may. */
  lemma PublishKeepsAnnouncing(workers: seq<Worker>, rows: Rows, events: seq<Event>, w: nat, pc: Worker, e: Event)
    requires WorkersMayAnnounce(workers, rows, events) && Owned(workers, rows) && w < |workers|
    requires (workers[w] == Claimed(e.jobId) && e.status == Running) || workers[w] == Announcing(e.jobId, e.status)
    requires !pc.Claimed? && !pc.Announcing?
    ensures WorkersMayAnnounce(workers[w := pc], rows, events + [e])
  {
    assert WorkerMayAnnounce(workers[w], rows, events);
    forall v | 0 <= v < |workers| && v != w
      ensures WorkerMayAnnounce(workers[v], rows, events + [e])
    {
      assert WorkerMayAnnounce(workers[v], rows, events);
    }
  }

  lemma PublishKeepsProducers(producers: seq<Producer>, rows: Rows, events: seq<Event>, e: Event)
    requires ProducersMayAnnounce(producers, rows, events) && e.status != Queued
    ensures ProducersMayAnnounce(producers, rows, events + [e])
  {
    forall p | 0 <= p < |producers|
      ensures ProducerMayAnnounce(producers[p], rows, events + [e])
    {
      assert ProducerMayAnnounce(producers[p], rows, events);
    }
  }

  lemma QueuedKeepsAnnouncing(workers: seq<Worker>, rows: Rows, events: seq<Event>, e: Event)
    requires WorkersMayAnnounce(workers, rows, events) && e.status == Queued
    ensures WorkersMayAnnounce(workers, rows, events + [e])
  {
    forall w | 0 <= w < |workers|
      ensures WorkerMayAnnounce(workers[w], rows, events + [e])
    {
      assert WorkerMayAnnounce(workers[w], rows, events);
    }
  }

  /** A producer publishes its queued event. */
  lemma QueuedKeepsProducers(producers: seq<Producer>, rows: Rows, events: seq<Event>, p: nat, e: Event)
    requires ProducersMayAnnounce(producers, rows, events) && p < |producers| && producers[p] == Pushed(e.jobId)
      && e.status == Queued
    ensures ProducersMayAnnounce(producers[p := Done], rows, events + [e])
  {
    forall q | 0 <= q < |producers| && q != p
      ensures ProducerMayAnnounce(producers[q], rows, events + [e])
    {
      assert ProducerMayAnnounce(producers[q], rows, events);
    }
  }

  // Moves: steps of a worker that write no row and publish nothing.

  /** What worker may move from `pc` to `pc'` without writing a row or publishing. */
  predicate MayMove(pc: Worker, pc': Worker) {
    && (InHand(pc') ==> InHand(pc) && pc'.id == pc.id)
    && !pc'.Claimed? && !pc'.Announcing?
    && (pc'.Finishing? ==> Terminal(pc'.status))
  }

  lemma MoveKeepsOwnership(s: State, next: State, w: nat, pc: Worker)
    requires Ownership(s) && w < |s.workers| && next.workers == s.workers[w := pc]
    requires next.db.rows == s.db.rows && next.history == s.history && next.claims == s.claims
    requires MayMove(s.workers[w], pc)
    ensures Ownership(next)
  {
    HandOnKeepsOwned(s.workers, s.db.rows, w, pc);
  }

  lemma MoveKeepsCausality(s: State, next: State, w: nat, pc: Worker)
    requires Causality(s) && w < |s.workers| && next.workers == s.workers[w := pc]
    requires next.db.rows == s.db.rows && next.db.events == s.db.events && next.producers == s.producers
    requires MayMove(s.workers[w], pc)
    ensures Causality(next)
  {
    WorkerKeepsAnnouncing(s.workers, s.db.rows, s.db.events, w, pc);
  }

  /** A worker's share of the copies of `id`, with all that is not in other hands. */
  function Share(db: Db, ledger: Ledger, pc: Worker, id: string): int {
    multiset(db.queue)[id] + Is(ToClaim(pc), id) + ledger.lost[id] + ledger.consumed[id]
      - ledger.doubled[id] - (if id in db.rows then 1 else 0)
  }

  /** The same for the running rows. */
  function RunningShare(db: Db, ledger: Ledger, pc: Worker, id: string): int {
    Is(Held(pc), id) + ledger.stranded[id] - if RowIs(db.rows, id, Running) then 1 else 0
  }

  lemma WorkerKeepsConserved(s: State, next: State, w: nat, pc: Worker)
    requires Conserved(s) && w < |s.workers| && next.workers == s.workers[w := pc] && next.producers == s.producers
    requires forall id ::
      && Share(next.db, next.ledger, pc, id) == Share(s.db, s.ledger, s.workers[w], id)
      && RunningShare(next.db, next.ledger, pc, id) == RunningShare(s.db, s.ledger, s.workers[w], id)
      && LedgerFits(next, id)
    ensures Conserved(next)
  {
    forall id
      ensures CopiesBalance(next, id) && HandsBalance(next, id)
    {
      assert CopiesBalance(s, id) && HandsBalance(s, id);
      assert Share(next.db, next.ledger, pc, id) == Share(s.db, s.ledger, s.workers[w], id);
      assert RunningShare(next.db, next.ledger, pc, id) == RunningShare(s.db, s.ledger, s.workers[w], id);
      TallyUpdated(s.workers, w, pc, ToClaim, id);
      TallyUpdated(s.workers, w, pc, Held, id);
    }
  }

  /** Steps that touch neither rows nor list nor ledger, of a worker that keeps what it has in hand. */
  lemma MoveKeepsConserved(s: State, next: State, w: nat, pc: Worker)
    requires Conserved(s) && w < |s.workers| && next.workers == s.workers[w := pc] && next.producers == s.producers
    requires next.db.rows == s.db.rows && next.db.queue == s.db.queue && next.ledger == s.ledger
    requires ToClaim(pc) == ToClaim(s.workers[w]) && Held(pc) == Held(s.workers[w])
    ensures Conserved(next)
  {
    forall id
      ensures LedgerFits(next, id)
    {
      assert LedgerFits(s, id);
    }
    WorkerKeepsConserved(s, next, w, pc);
  }

  /** A worker lets go of what it has, and the ledger says so. */
  lemma DropKeepsConserved(s: State, next: State, w: nat, id: string)
    requires Conserved(s) && w < |s.workers| && next.workers == s.workers[w := Idle] && next.producers == s.producers
      && next.db == s.db
    requires (s.workers[w] == Popped(id) && next.ledger == Lose(s, id).ledger)
      || (Held(s.workers[w]) == Some(id) && next.ledger == Strand(s, id).ledger)
    ensures Conserved(next)
  {
    forall i
      ensures LedgerFits(next, i)
    {
      assert LedgerFits(s, i);
    }
    WorkerKeepsConserved(s, next, w, Idle);
  }

  lemma ExecuteKeepsInv(s: State, w: nat, success: bool)
    requires Inv(s) && w < |s.workers| && s.workers[w].Working?
    ensures Inv(StepExecute(s, w, success))
  {
    var next := StepExecute(s, w, success);
    MoveKeepsOwnership(s, next, w, next.workers[w]);
    MoveKeepsCausality(s, next, w, next.workers[w]);
    MoveKeepsConserved(s, next, w, next.workers[w]);
  }

  lemma CrashKeepsConserved(s: State, w: nat)
    requires Conserved(s) && w < |s.workers|
    ensures Conserved(StepCrash(s, w))
  {
    var pc := s.workers[w];
    if pc.Popped? || InHand(pc) {
      DropKeepsConserved(s, StepCrash(s, w), w, pc.id);
    } else {
      MoveKeepsConserved(s, StepCrash(s, w), w, Idle);
    }
  }

  lemma CrashKeepsInv(s: State, w: nat)
    requires Inv(s) && w < |s.workers|
    ensures Inv(StepCrash(s, w))
  {
    var next := StepCrash(s, w);
    MoveKeepsOwnership(s, next, w, Idle);
    MoveKeepsCausality(s, next, w, Idle);
    CrashKeepsConserved(s, w);
  }

  lemma PopKeepsConserved(s: State, w: nat, answered: bool)
    requires Conserved(s) && w < |s.workers| && s.workers[w].Idle? && s.db.queue != []
    ensures Conserved(StepPop(s, w, answered))
  {
    var next := StepPop(s, w, answered);
    var id := Tail(s.db);
    var rest := next.db.queue;
    assert s.db.queue == rest + [id];
    forall i
      ensures LedgerFits(next, i)
      ensures multiset(s.db.queue)[i] == multiset(rest)[i] + Is(Some(id), i)
    {
      assert LedgerFits(s, i);
    }
    WorkerKeepsConserved(s, next, w, if answered then Popped(id) else Idle);
  }

  lemma PopKeepsFifo(s: State, w: nat, answered: bool)
    requires FirstInFirstOut(s) && w < |s.workers| && s.db.queue != []
    ensures FirstInFirstOut(StepPop(s, w, answered))
  {
    LastIsFirst(s.db.queue);
    assert s.pops + ([Tail(s.db)] + Reversed(Pop(s.db).queue)) == (s.pops + [Tail(s.db)]) + Reversed(Pop(s.db).queue);
  }

  lemma PopKeepsInv(s: State, w: nat, answered: bool)
    requires Inv(s) && w < |s.workers| && s.workers[w].Idle? && s.db.queue != []
    ensures Inv(StepPop(s, w, answered))
  {
    var next := StepPop(s, w, answered);
    var pc := if answered then Popped(Tail(s.db)) else Idle;
    MoveKeepsOwnership(s, next, w, pc);
    MoveKeepsCausality(s, next, w, pc);
    PopKeepsConserved(s, w, answered);
    PopKeepsFifo(s, w, answered);
  }

  // Claims: the guarded update.

  lemma TakeKeepsOwnership(s: State, w: nat, reply: Reply)
    requires Ownership(s) && w < |s.workers| && s.workers[w].Popped?
    requires reply != Dropped && HasStatus(s.db, s.workers[w].id, Queued)
    ensures Ownership(StepClaim(s, w, reply))
  {
    var id := s.workers[w].id;
    var next := StepClaim(s, w, reply);
    TakeKeepsOwned(s.workers, s.db.rows, w, if reply == Seen then Claimed(id) else Idle, id);
    assert next.db.rows == s.db.rows[id := s.db.rows[id].(status := Running)];
    forall i
      ensures multiset(next.claims)[i] == if i !in next.db.rows || next.db.rows[i].status == Queued then 0 else 1
    {
      assert multiset(next.claims)[i] == multiset(s.claims)[i] + if i == id then 1 else 0;
    }
  }

  lemma ClaimKeepsOwnership(s: State, w: nat, reply: Reply)
    requires Ownership(s) && w < |s.workers| && s.workers[w].Popped?
    ensures Ownership(StepClaim(s, w, reply))
  {
    if reply == Dropped || !HasStatus(s.db, s.workers[w].id, Queued) {
      HandOnKeepsOwned(s.workers, s.db.rows, w, Idle);
    } else {
      TakeKeepsOwnership(s, w, reply);
    }
  }

  /** The claim statement was run for a row that is queued, and so becomes running. */
  lemma TakeKeepsConserved(s: State, w: nat, reply: Reply)
    requires Conserved(s) && Ownership(s) && w < |s.workers| && s.workers[w].Popped?
    requires reply != Dropped && HasStatus(s.db, s.workers[w].id, Queued)
    ensures Conserved(StepClaim(s, w, reply))
  {
    var id := s.workers[w].id;
    var next := StepClaim(s, w, reply);
    var pc := if reply == Seen then Claimed(id) else Idle;
    assert next.db == SetStatus(s.db, id, Running) && next.workers == s.workers[w := pc];
    forall i
      ensures Share(next.db, next.ledger, pc, i) == Share(s.db, s.ledger, s.workers[w], i)
      ensures RunningShare(next.db, next.ledger, pc, i) == RunningShare(s.db, s.ledger, s.workers[w], i)
      ensures LedgerFits(next, i)
    {
      assert LedgerFits(s, i);
    }
    WorkerKeepsConserved(s, next, w, pc);
  }

  lemma ClaimKeepsConserved(s: State, w: nat, reply: Reply)
    requires Conserved(s) && Ownership(s) && w < |s.workers| && s.workers[w].Popped?
    ensures Conserved(StepClaim(s, w, reply))
  {
    var id := s.workers[w].id;
    var next := StepClaim(s, w, reply);
    if reply == Dropped {
      DropKeepsConserved(s, next, w, id);
    } else if HasStatus(s.db, id, Queued) {
      TakeKeepsConserved(s, w, reply);
    } else {
      forall i
        ensures LedgerFits(next, i)
      {
        assert LedgerFits(s, i);
      }
      WorkerKeepsConserved(s, next, w, Idle);
    }
  }

  lemma TakeKeepsCausality(s: State, w: nat, reply: Reply)
    requires Causality(s) && w < |s.workers| && s.workers[w].Popped?
    requires reply != Dropped && HasStatus(s.db, s.workers[w].id, Queued) && s.history.Keys == s.db.rows.Keys
    ensures Causality(StepClaim(s, w, reply))
  {
    var id := s.workers[w].id;
    var next := StepClaim(s, w, reply);
    WriteKeepsEvents(s.db.rows, s.db.events, id, Running);
    WriteKeepsAnnouncing(s.workers, s.db.rows, s.db.events, id, Running);
    forall i | 0 <= i < |s.db.events| && s.db.events[i].jobId == id
      ensures s.db.events[i].status == Queued
    {
      assert EventIsTrue(s.db.rows, s.db.events[i]);
    }
    WorkerKeepsAnnouncing(s.workers, next.db.rows, s.db.events, w, next.workers[w]);
    assert ProducersMayAnnounce(s.producers, next.db.rows, s.db.events);
  }

  lemma ClaimKeepsCausality(s: State, w: nat, reply: Reply)
    requires Causality(s) && Ownership(s) && w < |s.workers| && s.workers[w].Popped?
    ensures Causality(StepClaim(s, w, reply))
  {
    if reply == Dropped || !HasStatus(s.db, s.workers[w].id, Queued) {
      MoveKeepsCausality(s, StepClaim(s, w, reply), w, Idle);
    } else {
      TakeKeepsCausality(s, w, reply);
    }
  }

  // Finishing: the update without a guard.

  lemma FinishKeepsOwnership(s: State, w: nat, reply: Reply)
    requires Ownership(s) && w < |s.workers| && s.workers[w].Finishing?
    ensures Ownership(StepFinish(s, w, reply))
  {
    var id, status := s.workers[w].id, s.workers[w].status;
    if reply == Dropped {
      HandOnKeepsOwned(s.workers, s.db.rows, w, Idle);
    } else {
      ReleaseKeepsOwned(s.workers, s.db.rows, w, if reply == Seen then Announcing(id, status) else Idle, status);
      assert RowIs(s.db.rows, id, Running) && Terminal(status);
    }
  }

  lemma EndKeepsConserved(s: State, w: nat, reply: Reply)
    requires Conserved(s) && w < |s.workers| && s.workers[w].Finishing? && Terminal(s.workers[w].status)
    requires reply != Dropped && RowIs(s.db.rows, s.workers[w].id, Running) && s.history.Keys == s.db.rows.Keys
    ensures Conserved(StepFinish(s, w, reply))
  {
    var next := StepFinish(s, w, reply);
    forall i
      ensures LedgerFits(next, i)
      ensures Share(next.db, next.ledger, next.workers[w], i) == Share(s.db, s.ledger, s.workers[w], i)
      ensures RunningShare(next.db, next.ledger, next.workers[w], i) == RunningShare(s.db, s.ledger, s.workers[w], i)
    {
      assert LedgerFits(s, i);
    }
    WorkerKeepsConserved(s, next, w, next.workers[w]);
  }

  lemma FinishKeepsConserved(s: State, w: nat, reply: Reply)
    requires Conserved(s) && Ownership(s) && w < |s.workers| && s.workers[w].Finishing?
    ensures Conserved(StepFinish(s, w, reply))
  {
    assert RowIs(s.db.rows, s.workers[w].id, Running) && Terminal(s.workers[w].status);
    if reply == Dropped {
      DropKeepsConserved(s, StepFinish(s, w, reply), w, s.workers[w].id);
    } else {
      EndKeepsConserved(s, w, reply);
    }
  }

  lemma FinishKeepsCausality(s: State, w: nat, reply: Reply)
    requires Causality(s) && Ownership(s) && w < |s.workers| && s.workers[w].Finishing?
    ensures Causality(StepFinish(s, w, reply))
  {
    var id, status := s.workers[w].id, s.workers[w].status;
    var next := StepFinish(s, w, reply);
    assert RowIs(s.db.rows, id, Running) && Terminal(status);
    if reply == Dropped {
      WorkerKeepsAnnouncing(s.workers, s.db.rows, s.db.events, w, Idle);
    } else {
      WriteKeepsEvents(s.db.rows, s.db.events, id, status);
      WriteKeepsAnnouncing(s.workers, s.db.rows, s.db.events, id, status);
      forall i | 0 <= i < |s.db.events| && s.db.events[i].jobId == id
        ensures !Terminal(s.db.events[i].status)
      {
        assert EventIsTrue(s.db.rows, s.db.events[i]);
      }
      forall v | 0 <= v < |s.workers| && s.workers[v].Announcing?
        ensures s.workers[v].id != id
      {
        assert WorkerMayAnnounce(s.workers[v], s.db.rows, s.db.events);
      }
      WorkerKeepsAnnouncing(s.workers, next.db.rows, s.db.events, w, next.workers[w]);
      assert ProducersMayAnnounce(s.producers, next.db.rows, s.db.events);
    }
  }

  // Announcements.

  lemma AnnounceRunningKeepsInv(s: State, w: nat, reachable: bool)
    requires Inv(s) && w < |s.workers| && s.workers[w].Claimed?
    ensures Inv(StepAnnounceRunning(s, w, reachable))
  {
    var id := s.workers[w].id;
    var next := StepAnnounceRunning(s, w, reachable);
    assert RowIs(s.db.rows, id, Running);
    HandOnKeepsOwned(s.workers, s.db.rows, w, Working(id));
    MoveKeepsConserved(s, next, w, Working(id));
    if reachable {
      var row := s.db.rows[id];
      AnnouncementKeepsCausality(s, next, w, Working(id), Event(id, row.leadId, row.jobType, Running));
    } else {
      MoveKeepsCausality(s, next, w, Working(id));
    }
  }

  lemma AnnounceEndKeepsInv(s: State, w: nat, reachable: bool)
    requires Inv(s) && w < |s.workers| && s.workers[w].Announcing?
    ensures Inv(StepAnnounceEnd(s, w, reachable))
  {
    var id, status := s.workers[w].id, s.workers[w].status;
    var next := StepAnnounceEnd(s, w, reachable);
    assert WorkerMayAnnounce(s.workers[w], s.db.rows, s.db.events);
    HandOnKeepsOwned(s.workers, s.db.rows, w, Idle);
    MoveKeepsConserved(s, next, w, Idle);
    if reachable {
      AnnouncementKeepsCausality(s, next, w, Idle, Event(id, s.db.rows[id].leadId, s.db.rows[id].jobType, status));
    } else {
      MoveKeepsCausality(s, next, w, Idle);
    }
  }

  /** Worker `w` published `e`, which it was entitled to. */
  lemma AnnouncementKeepsCausality(s: State, next: State, w: nat, pc: Worker, e: Event)
    requires Causality(s) && Ownership(s) && w < |s.workers|
    requires (s.workers[w] == Claimed(e.jobId) && e.status == Running) || s.workers[w] == Announcing(e.jobId, e.status)
    requires pc == Idle || pc == Working(e.jobId)
    requires e.jobId in s.db.rows && e.leadId == s.db.rows[e.jobId].leadId && e.jobType == s.db.rows[e.jobId].jobType
    requires next.workers == s.workers[w := pc] && next.db.rows == s.db.rows && next.db.events == s.db.events + [e]
    requires next.producers == s.producers
    ensures Causality(next)
  {
    assert WorkerMayAnnounce(s.workers[w], s.db.rows, s.db.events);
    assert s.workers[w].Claimed? ==> RowIs(s.db.rows, e.jobId, Running);
    forall i | 0 <= i < |s.db.events| && s.db.events[i].jobId == e.jobId
      ensures !Terminal(s.db.events[i].status) && s.db.events[i].status != e.status
    {
      assert EventIsTrue(s.db.rows, s.db.events[i]);
    }
    PublishKeepsEvents(s.db.rows, s.db.events, e);
    PublishKeepsAnnouncing(s.workers, s.db.rows, s.db.events, w, pc, e);
    PublishKeepsProducers(s.producers, s.db.rows, s.db.events, e);
  }

  // Producers.

  lemma InsertKeepsConserved(s: State, id: string, jobType: string, leadId: string)
    requires Conserved(s) && Insertable(s.db, id, jobType)
    ensures Conserved(StepInsert(s, id, jobType, leadId))
  {
    var next := StepInsert(s, id, jobType, leadId);
    forall i
      ensures CopiesBalance(next, i) && HandsBalance(next, i) && LedgerFits(next, i)
    {
      assert CopiesBalance(s, i) && HandsBalance(s, i) && LedgerFits(s, i);
      TallyAppended(s.producers, Inserted(id), ToPush, i);
    }
  }

  lemma InsertKeepsOwnership(s: State, id: string, jobType: string, leadId: string)
    requires Ownership(s) && Insertable(s.db, id, jobType)
    ensures Ownership(StepInsert(s, id, jobType, leadId))
  {
  }

  lemma InsertKeepsCausality(s: State, id: string, jobType: string, leadId: string)
    requires Causality(s) && Ownership(s) && Insertable(s.db, id, jobType)
    ensures Causality(StepInsert(s, id, jobType, leadId))
  {
    var next := StepInsert(s, id, jobType, leadId);
    forall i | 0 <= i < |s.db.events|
      ensures EventIsTrue(next.db.rows, s.db.events[i]) && s.db.events[i].jobId != id
    {
      assert EventIsTrue(s.db.rows, s.db.events[i]);
    }
    forall w | 0 <= w < |s.workers|
      ensures WorkerMayAnnounce(s.workers[w], next.db.rows, s.db.events)
    {
      assert WorkerMayAnnounce(s.workers[w], s.db.rows, s.db.events);
    }
    forall p | 0 <= p < |s.producers|
      ensures ProducerMayAnnounce(s.producers[p], next.db.rows, s.db.events)
        && (!s.producers[p].Done? ==> s.producers[p].id != id)
    {
      assert ProducerMayAnnounce(s.producers[p], s.db.rows, s.db.events);
    }
    assert ProducersMayAnnounce(next.producers, next.db.rows, s.db.events);
  }

  /** What producer `p` no longer has to push is in the list or in the ledger. */
  predicate PushBalances(s: State, next: State, p: nat, pc: Producer, id: string)
    requires p < |s.producers|
  {
    && multiset(next.db.queue)[id] + Is(ToPush(pc), id) + next.ledger.lost[id] + s.ledger.doubled[id]
       == multiset(s.db.queue)[id] + Is(ToPush(s.producers[p]), id) + s.ledger.lost[id] + next.ledger.doubled[id]
    && (id in next.ledger.doubled ==> id in s.db.rows)
  }

  lemma ProducerKeepsConserved(s: State, next: State, p: nat, pc: Producer)
    requires Conserved(s) && p < |s.producers|
    requires next.producers == s.producers[p := pc] && next.workers == s.workers && next.db.rows == s.db.rows
    requires next.ledger.stranded == s.ledger.stranded && next.ledger.consumed == s.ledger.consumed
    requires forall id :: PushBalances(s, next, p, pc, id)
    ensures Conserved(next)
  {
    forall id
      ensures CopiesBalance(next, id) && HandsBalance(next, id) && LedgerFits(next, id)
    {
      assert CopiesBalance(s, id) && HandsBalance(s, id) && LedgerFits(s, id);
      assert PushBalances(s, next, p, pc, id);
      TallyUpdated(s.producers, p, pc, ToPush, id);
    }
  }

  lemma PushedOnce(queue: seq<string>, id: string, i: string)
    ensures multiset([id] + queue)[i] == Is(Some(id), i) + multiset(queue)[i]
  {
  }

  lemma DeliveryBalances(s: State, p: nat, delivery: Delivery, i: string)
    requires p < |s.producers| && s.producers[p].Inserted? && s.producers[p].id in s.db.rows && LedgerFits(s, i)
    ensures PushBalances(s, StepPush(s, p, delivery), p, Pushed(s.producers[p].id), i)
  {
    var id := s.producers[p].id;
    PushedOnce(s.db.queue, id, i);
    PushedOnce([id] + s.db.queue, id, i);
  }

  lemma PushKeepsConserved(s: State, p: nat, delivery: Delivery)
    requires Conserved(s) && p < |s.producers| && s.producers[p].Inserted? && s.producers[p].id in s.db.rows
    ensures Conserved(StepPush(s, p, delivery))
  {
    forall i
      ensures PushBalances(s, StepPush(s, p, delivery), p, Pushed(s.producers[p].id), i)
    {
      assert LedgerFits(s, i);
      DeliveryBalances(s, p, delivery, i);
    }
    ProducerKeepsConserved(s, StepPush(s, p, delivery), p, Pushed(s.producers[p].id));
  }

  lemma PushKeepsFifo(s: State, p: nat, delivery: Delivery)
    requires FirstInFirstOut(s) && p < |s.producers| && s.producers[p].Inserted?
    ensures FirstInFirstOut(StepPush(s, p, delivery))
  {
    var id := s.producers[p].id;
    var once := [id] + s.db.queue;
    assert once[1..] == s.db.queue && ([id] + once)[1..] == once;
    assert s.pushes + [id, id] == s.pushes + [id] + [id];
  }

  lemma PushKeepsInv(s: State, p: nat, delivery: Delivery)
    requires Inv(s) && p < |s.producers| && s.producers[p].Inserted?
    ensures Inv(StepPush(s, p, delivery))
  {
    var next := StepPush(s, p, delivery);
    assert ProducerMayAnnounce(s.producers[p], s.db.rows, s.db.events);
    PushKeepsConserved(s, p, delivery);
    PushKeepsFifo(s, p, delivery);
    assert next.producers == s.producers[p := Pushed(s.producers[p].id)] && next.db.events == s.db.events;
    assert ProducersMayAnnounce(next.producers, s.db.rows, s.db.events);
  }

  lemma AnnounceQueuedKeepsCausality(s: State, p: nat, reachable: bool)
    requires Causality(s) && p < |s.producers| && s.producers[p].Pushed?
    ensures Causality(StepAnnounceQueued(s, p, reachable))
  {
    var id := s.producers[p].id;
    assert ProducerMayAnnounce(s.producers[p], s.db.rows, s.db.events);
    if reachable {
      var e := Event(id, s.db.rows[id].leadId, s.db.rows[id].jobType, Queued);
      PublishKeepsEvents(s.db.rows, s.db.events, e);
      QueuedKeepsAnnouncing(s.workers, s.db.rows, s.db.events, e);
      QueuedKeepsProducers(s.producers, s.db.rows, s.db.events, p, e);
    } else {
      assert ProducersMayAnnounce(s.producers[p := Done], s.db.rows, s.db.events);
    }
  }

  lemma AnnounceQueuedKeepsInv(s: State, p: nat, reachable: bool)
    requires Inv(s) && p < |s.producers| && s.producers[p].Pushed?
    ensures Inv(StepAnnounceQueued(s, p, reachable))
  {
    AnnounceQueuedKeepsCausality(s, p, reachable);
    forall id
      ensures id in s.ledger.doubled ==> id in s.db.rows
    {
      assert LedgerFits(s, id);
    }
    ProducerKeepsConserved(s, StepAnnounceQueued(s, p, reachable), p, Done);
  }

  lemma InsertStepKeepsInv(s: State, id: string, jobType: string, leadId: string)
    requires Inv(s)
    ensures Inv(Step(s, Insert(id, jobType, leadId)))
  {
    if Insertable(s.db, id, jobType) {
      InsertKeepsOwnership(s, id, jobType, leadId);
      InsertKeepsConserved(s, id, jobType, leadId);
      InsertKeepsCausality(s, id, jobType, leadId);
    }
  }

  lemma PushStepKeepsInv(s: State, p: nat, delivery: Delivery)
    requires Inv(s)
    ensures Inv(Step(s, PushId(p, delivery)))
  {
    if p < |s.producers| && s.producers[p].Inserted? {
      PushKeepsInv(s, p, delivery);
    }
  }

  lemma AnnounceQueuedStepKeepsInv(s: State, p: nat, reachable: bool)
    requires Inv(s)
    ensures Inv(Step(s, AnnounceQueued(p, reachable)))
  {
    if p < |s.producers| && s.producers[p].Pushed? {
      AnnounceQueuedKeepsInv(s, p, reachable);
    }
  }

  lemma PopStepKeepsInv(s: State, w: nat, answered: bool)
    requires Inv(s)
    ensures Inv(Step(s, PopId(w, answered)))
  {
    if w < |s.workers| && s.workers[w].Idle? && s.db.queue != [] {
      PopKeepsInv(s, w, answered);
    }
  }

  lemma ClaimStepKeepsInv(s: State, w: nat, reply: Reply)
    requires Inv(s)
    ensures Inv(Step(s, Claim(w, reply)))
  {
    if w < |s.workers| && s.workers[w].Popped? {
      ClaimKeepsOwnership(s, w, reply);
      ClaimKeepsConserved(s, w, reply);
      ClaimKeepsCausality(s, w, reply);
    }
  }

  lemma AnnounceRunningStepKeepsInv(s: State, w: nat, reachable: bool)
    requires Inv(s)
    ensures Inv(Step(s, AnnounceRunning(w, reachable)))
  {
    if w < |s.workers| && s.workers[w].Claimed? {
      AnnounceRunningKeepsInv(s, w, reachable);
    }
  }

  lemma ExecuteStepKeepsInv(s: State, w: nat, success: bool)
    requires Inv(s)
    ensures Inv(Step(s, Execute(w, success)))
  {
    if w < |s.workers| && s.workers[w].Working? {
      ExecuteKeepsInv(s, w, success);
    }
  }

  lemma FinishStepKeepsInv(s: State, w: nat, reply: Reply)
    requires Inv(s)
    ensures Inv(Step(s, Finish(w, reply)))
  {
    if w < |s.workers| && s.workers[w].Finishing? {
      FinishKeepsOwnership(s, w, reply);
      FinishKeepsConserved(s, w, reply);
      FinishKeepsCausality(s, w, reply);
    }
  }

  lemma AnnounceEndStepKeepsInv(s: State, w: nat, reachable: bool)
    requires Inv(s)
    ensures Inv(Step(s, AnnounceEnd(w, reachable)))
  {
    if w < |s.workers| && s.workers[w].Announcing? {
      AnnounceEndKeepsInv(s, w, reachable);
    }
  }

  lemma CrashStepKeepsInv(s: State, w: nat)
    requires Inv(s)
    ensures Inv(Step(s, Crash(w)))
  {
    if w < |s.workers| {
      CrashKeepsInv(s, w);
    }
  }

  lemma StepKeepsInv(s: State, a: Action)
    requires Inv(s)
    ensures Inv(Step(s, a))
  {
    match a
    case Insert(id, jobType, leadId) => InsertStepKeepsInv(s, id, jobType, leadId);
    case PushId(p, delivery) => PushStepKeepsInv(s, p, delivery);
    case AnnounceQueued(p, reachable) => AnnounceQueuedStepKeepsInv(s, p, reachable);
    case PopId(w, answered) => PopStepKeepsInv(s, w, answered);
    case Claim(w, reply) => ClaimStepKeepsInv(s, w, reply);
    case AnnounceRunning(w, reachable) => AnnounceRunningStepKeepsInv(s, w, reachable);
    case Execute(w, success) => ExecuteStepKeepsInv(s, w, success);
    case Finish(w, reply) => FinishStepKeepsInv(s, w, reply);
    case AnnounceEnd(w, reachable) => AnnounceEndStepKeepsInv(s, w, reachable);
    case Crash(w) => CrashStepKeepsInv(s, w);
  }
}

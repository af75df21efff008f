/**
 * Any number of enqueuers and workers over one job store, interleaved step by step and subject to
 * faults: an LPUSH that is lost or retried into a duplicate, a BRPOP whose answer is lost, an SQL
 * statement that fails or succeeds unseen, a publish that fails, a worker that crashes.
 */
module WorkerProtocol {
  import opened Options
  import opened Jobs

  /** A call of Enqueue, after its INSERT. */
  datatype Producer = Inserted(id: string) | Pushed(id: string) | Done

  datatype Worker =
    | Idle
    | Popped(id: string)                    // BRPOP answered
    | Claimed(id: string)                   // the row is running, not announced yet
    | Working(id: string)
    | Finishing(id: string, status: Status) // the work is over, the row is not updated yet
    | Announcing(id: string, status: Status)

  datatype Delivery = Once | Never | Twice

  /** What became of the ids that are neither in the list nor in hand. */
  datatype Ledger = Ledger(
    consumed: multiset<string>,             // a claim statement was run for them
    lost: multiset<string>,                 // they left the list without a claim, or never reached it
    doubled: multiset<string>,              // pushed once too often
    stranded: multiset<string>)             // their rows are running and in nobody's hands

  const CLEAN := Ledger(multiset{}, multiset{}, multiset{}, multiset{})

  datatype State = State(
    db: Db,
    producers: seq<Producer>,
    workers: seq<Worker>,
    results: set<string>,                   // jobs whose work succeeded: its result is in the database
    history: map<string, seq<Status>>,      // the statuses each row has been given
    claims: seq<string>,                    // jobs handed out by a successful claim
    pushes: seq<string>,
    pops: seq<string>,
    ledger: Ledger)

  datatype Action =
    | Insert(id: string, jobType: string, leadId: string)
    | PushId(producer: nat, delivery: Delivery)
    | AnnounceQueued(producer: nat, reachable: bool)
    | PopId(worker: nat, answered: bool)
    | Claim(worker: nat, reply: Reply)
    | AnnounceRunning(worker: nat, reachable: bool)
    | Execute(worker: nat, success: bool)
    | Finish(worker: nat, reply: Reply)
    | AnnounceEnd(worker: nat, reachable: bool)
    | Crash(worker: nat)

  function Start(workers: nat): State {
    State(Db(map[], [], []), [], seq(workers, _ => Idle), {}, map[], [], [], [], CLEAN)
  }

  function Lose(s: State, id: string): State {
    s.(ledger := s.ledger.(lost := s.ledger.lost + multiset{id}))
  }

  function Strand(s: State, id: string): State {
    s.(ledger := s.ledger.(stranded := s.ledger.stranded + multiset{id}))
  }

  function Consume(s: State, id: string): State {
    s.(ledger := s.ledger.(consumed := s.ledger.consumed + multiset{id}))
  }

  function SetWorker(s: State, w: nat, pc: Worker): State
    requires w < |s.workers|
  {
    s.(workers := s.workers[w := pc])
  }

  /** A status written to a row, with the record of it. */
  function Write(s: State, id: string, status: Status): State {
    if id in s.db.rows && id in s.history
    then s.(db := SetStatus(s.db, id, status), history := s.history[id := s.history[id] + [status]])
    else s
  }

  function StepInsert(s: State, id: string, jobType: string, leadId: string): State {
    if Insertable(s.db, id, jobType)
    then s.(
      db := InsertJob(s.db, id, jobType, leadId),
      history := s.history[id := [Queued]],
      producers := s.producers + [Inserted(id)])
    else s
  }

  function StepPush(s: State, p: nat, delivery: Delivery): State
    requires p < |s.producers| && s.producers[p].Inserted?
  {
    var id := s.producers[p].id;
    var next := s.(producers := s.producers[p := Pushed(id)]);
    match delivery
    case Once => next.(db := Push(s.db, id), pushes := s.pushes + [id])
    case Never => Lose(next, id)
    case Twice => next.(db := Push(Push(s.db, id), id), pushes := s.pushes + [id, id],
                         ledger := s.ledger.(doubled := s.ledger.doubled + multiset{id}))
  }

  function StepPop(s: State, w: nat, answered: bool): State
    requires w < |s.workers| && s.db.queue != []
  {
    var id := Tail(s.db);
    var next := s.(db := Pop(s.db), pops := s.pops + [id]);
    if answered then SetWorker(next, w, Popped(id)) else Lose(next, id)
  }

  function StepClaim(s: State, w: nat, reply: Reply): State
    requires w < |s.workers| && s.workers[w].Popped?
  {
    var id := s.workers[w].id;
    if reply == Dropped then Lose(SetWorker(s, w, Idle), id)
    else if !HasStatus(s.db, id, Queued) then Consume(SetWorker(s, w, Idle), id)
    else
      var claimed := Consume(Write(s, id, Running), id).(claims := s.claims + [id]);
      if reply == Seen then SetWorker(claimed, w, Claimed(id))
      else Strand(SetWorker(claimed, w, Idle), id)
  }

  function StepExecute(s: State, w: nat, success: bool): State
    requires w < |s.workers| && s.workers[w].Working?
  {
    var id := s.workers[w].id;
    SetWorker(s, w, Finishing(id, Outcome(s.db, success, id))).(
      results := if success then s.results + {id} else s.results)
  }

  function StepFinish(s: State, w: nat, reply: Reply): State
    requires w < |s.workers| && s.workers[w].Finishing?
  {
    var Finishing(id, status) := s.workers[w];
    match reply
    case Seen => SetWorker(Write(s, id, status), w, Announcing(id, status))
    case Unseen => SetWorker(Write(s, id, status), w, Idle)
    case Dropped => Strand(SetWorker(s, w, Idle), id)
  }

  function StepCrash(s: State, w: nat): State
    requires w < |s.workers|
  {
    var next := SetWorker(s, w, Idle);
    match s.workers[w]
    case Popped(id) => Lose(next, id)
    case Claimed(id) => Strand(next, id)
    case Working(id) => Strand(next, id)
    case Finishing(id, _) => Strand(next, id)
    case _ => next
  }

  function StepAnnounceQueued(s: State, p: nat, reachable: bool): State
    requires p < |s.producers| && s.producers[p].Pushed?
  {
    s.(db := TryPublish(s.db, s.producers[p].id, Queued, reachable), producers := s.producers[p := Done])
  }

  function StepAnnounceRunning(s: State, w: nat, reachable: bool): State
    requires w < |s.workers| && s.workers[w].Claimed?
  {
    SetWorker(s, w, Working(s.workers[w].id)).(db := TryPublish(s.db, s.workers[w].id, Running, reachable))
  }

  function StepAnnounceEnd(s: State, w: nat, reachable: bool): State
    requires w < |s.workers| && s.workers[w].Announcing?
  {
    SetWorker(s, w, Idle).(db := TryPublish(s.db, s.workers[w].id, s.workers[w].status, reachable))
  }

  function Step(s: State, a: Action): State {
    match a
    case Insert(id, jobType, leadId) => StepInsert(s, id, jobType, leadId)
    case PushId(p, delivery) => if p < |s.producers| && s.producers[p].Inserted? then StepPush(s, p, delivery) else s
    case AnnounceQueued(p, reachable) =>
      if p < |s.producers| && s.producers[p].Pushed? then StepAnnounceQueued(s, p, reachable) else s
    case PopId(w, answered) =>
      if w < |s.workers| && s.workers[w].Idle? && s.db.queue != [] then StepPop(s, w, answered) else s
    case Claim(w, reply) => if w < |s.workers| && s.workers[w].Popped? then StepClaim(s, w, reply) else s
    case AnnounceRunning(w, reachable) =>
      if w < |s.workers| && s.workers[w].Claimed? then StepAnnounceRunning(s, w, reachable) else s
    case Execute(w, success) => if w < |s.workers| && s.workers[w].Working? then StepExecute(s, w, success) else s
    case Finish(w, reply) => if w < |s.workers| && s.workers[w].Finishing? then StepFinish(s, w, reply) else s
    case AnnounceEnd(w, reachable) =>
      if w < |s.workers| && s.workers[w].Announcing? then StepAnnounceEnd(s, w, reachable) else s
    case Crash(w) => if w < |s.workers| then StepCrash(s, w) else s
  }

  function Exec(s: State, actions: seq<Action>): State
    decreases |actions|
  {
    if actions == [] then s else Exec(Step(s, actions[0]), actions[1..])
  }
}

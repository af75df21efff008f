/**
 * The job store (internal/platform/jobs/store.go) and one iteration of the worker (cmd/worker/main.go).
 *
 * A job is a row of the Postgres table; its id travels through a Redis list, and every change of status
 * is announced on a Redis channel. `Db` holds the three. Each function on it is one SQL statement or one
 * Redis command, and so one atomic step of the concurrent system in WorkerProtocol.
 */
module Jobs {
  import opened Options

  const EMBED := "embed"
  const SCORE := "score"

  datatype Status = Queued | Running | Completed | Failed

  datatype Row = Row(jobType: string, leadId: string, status: Status)

  datatype Event = Event(jobId: string, leadId: string, jobType: string, status: Status)

  datatype Db = Db(rows: map<string, Row>, queue: seq<string>, events: seq<Event>)

  predicate HasStatus(db: Db, id: string, status: Status) {
    id in db.rows && db.rows[id].status == status
  }

  /** INSERT INTO jobs; the table's CHECK admits two types. */
  predicate Insertable(db: Db, id: string, jobType: string) {
    id !in db.rows && jobType in {EMBED, SCORE}
  }

  function InsertJob(db: Db, id: string, jobType: string, leadId: string): Db {
    db.(rows := db.rows[id := Row(jobType, leadId, Queued)])
  }

  /** LPUSH */
  function Push(db: Db, id: string): Db {
    db.(queue := [id] + db.queue)
  }

  /** The id BRPOP takes, and what it leaves. */
  function Tail(db: Db): string
    requires db.queue != []
  {
    db.queue[|db.queue| - 1]
  }

  function Pop(db: Db): Db
    requires db.queue != []
  {
    db.(queue := db.queue[..|db.queue| - 1])
  }

  /** UPDATE jobs SET status WHERE id, with no condition on the status it replaces. */
  function SetStatus(db: Db, id: string, status: Status): Db {
    if id in db.rows then db.(rows := db.rows[id := db.rows[id].(status := status)]) else db
  }

  /** UPDATE jobs SET status = running WHERE id AND status = queued */
  function ClaimRow(db: Db, id: string): Db {
    if HasStatus(db, id, Queued) then SetStatus(db, id, Running) else db
  }

  function Publish(db: Db, id: string, status: Status): Db {
    if id !in db.rows then db
    else
      var row := db.rows[id];
      db.(events := db.events + [Event(id, row.leadId, row.jobType, status)])
  }

  /** Publish, when Redis is reachable; the store ignores the error otherwise. */
  function TryPublish(db: Db, id: string, status: Status, reachable: bool): Db {
    if reachable then Publish(db, id, status) else db
  }

  /** The ids of `queue` in the order they are popped. */
  function Reversed(queue: seq<string>): seq<string> {
    if queue == [] then [] else Reversed(queue[1..]) + [queue[0]]
  }

  /** What becomes of a statement: applied and answered; not applied; applied, but the answer was lost. */
  datatype Reply = Seen | Dropped | Unseen

  /** Enqueue: the row, the push and the announcement; only a refused row is an error. */
  function EnqueueJob(db: Db, id: string, jobType: string, leadId: string, pushed: bool, published: bool): Db {
    if !Insertable(db, id, jobType) then db
    else
      var inserted := InsertJob(db, id, jobType, leadId);
      TryPublish(if pushed then Push(inserted, id) else inserted, id, Queued, published)
  }

  datatype Claim = Job(id: string) | NoJob | ClaimError

  /** ClaimNext: pops one id, claims its row if it is still queued, and announces that. The id is gone either way. */
  function ClaimOldest(db: Db, answered: bool, reply: Reply, reachable: bool): (Db, Claim) {
    if db.queue == [] then (db, NoJob)
    else
      var id, popped := Tail(db), Pop(db);
      if !answered || reply == Dropped then (popped, ClaimError)
      else if reply == Unseen then (ClaimRow(popped, id), ClaimError)
      else if HasStatus(db, id, Queued) then (TryPublish(ClaimRow(popped, id), id, Running, reachable), Job(id))
      else (popped, NoJob)
  }

  /** Complete or Fail; an error when the statement fails, finds no row, or only the announcement fails. */
  function FinishJob(db: Db, id: string, status: Status, reply: Reply, reachable: bool): (Db, bool) {
    match reply
    case Dropped => (db, false)
    case Unseen => (SetStatus(db, id, status), false)
    case Seen => (TryPublish(SetStatus(db, id, status), id, status, reachable), id in db.rows && reachable)
  }

  /** What one round of the worker meets with: whether its work succeeds, and how the store's commands fare. */
  datatype Round = Round(works: bool, answered: bool, claim: Reply, announced: bool, finish: Reply, ended: bool)

  /** How the work on a job ends: jobs of an unknown type fail. */
  function Outcome(db: Db, works: bool, id: string): Status {
    if id in db.rows && db.rows[id].jobType in {EMBED, SCORE} && works then Completed else Failed
  }

  /** One iteration of the worker's loop when nobody interferes. No error of the store is acted on. */
  function Iteration(db: Db, r: Round): Db {
    var (claimed, job) := ClaimOldest(db, r.answered, r.claim, r.announced);
    match job
    case Job(id) => FinishJob(claimed, id, Outcome(claimed, r.works, id), r.finish, r.ended).0
    case _ => claimed
  }

  function Iterations(db: Db, rounds: seq<Round>): Db {
    if rounds == [] then db else Iteration(Iterations(db, rounds[..|rounds| - 1]), rounds[|rounds| - 1])
  }

  /** The id at the end of the list is that of a row still queued. */
  predicate NextIsQueued(rows: map<string, Row>, queue: seq<string>) {
    queue != [] && queue[|queue| - 1] in rows && rows[queue[|queue| - 1]].status == Queued
  }

  /** The announcement of what a row says. */
  function EventOf(rows: map<string, Row>, id: string): Event
    requires id in rows
  {
    Event(id, rows[id].leadId, rows[id].jobType, rows[id].status)
  }

  class Store {
    var rows: map<string, Row>
    var queue: seq<string>
    var events: seq<Event>

    constructor ()
      ensures Contents() == Db(map[], [], [])
    {
      rows, queue, events := map[], [], [];
    }

    function Contents(): Db
      reads this
    {
      Db(rows, queue, events)
    }

    /** `id` is the identifier the database generates; `pushed` and `published` say what reaches Redis. */
    method Enqueue(id: string, jobType: string, leadId: string, pushed: bool, published: bool) returns (ok: bool)
      modifies this
      ensures ok == Insertable(old(Contents()), id, jobType)
      ensures Contents() == EnqueueJob(old(Contents()), id, jobType, leadId, pushed, published)
      ensures ok ==> rows == old(rows)[id := Row(jobType, leadId, Queued)]
      ensures ok ==> queue == (if pushed then [id] else []) + old(queue)
      ensures ok ==> events == old(events) + if published then [Event(id, leadId, jobType, Queued)] else []
    {
      if id in rows || jobType !in {EMBED, SCORE} {
        return false;
      }
      rows := rows[id := Row(jobType, leadId, Queued)];
      if pushed {
        queue := [id] + queue;
      }
      if published {
        events := events + [Event(id, leadId, jobType, Queued)];
      }
      return true;
    }

    method ClaimNext(answered: bool, reply: Reply, reachable: bool) returns (job: Claim)
      modifies this
      ensures (Contents(), job) == ClaimOldest(old(Contents()), answered, reply, reachable)
      ensures old(queue) != [] ==> queue == old(queue)[..|old(queue)| - 1]
      ensures job.Job? <==> answered && reply == Seen && NextIsQueued(old(rows), old(queue))
      ensures job.Job? ==> job.id == old(queue)[|old(queue)| - 1] && job.id in rows
      ensures job.Job? ==> events == old(events) + if reachable then [EventOf(rows, job.id)] else []
      ensures !job.Job? ==> events == old(events)
      ensures if answered && reply != Dropped && NextIsQueued(old(rows), old(queue)) then
          var id := old(queue)[|old(queue)| - 1];
          rows == old(rows)[id := old(rows)[id].(status := Running)]
        else
          rows == old(rows)
    {
      if |queue| == 0 {
        return NoJob;
      }
      var id := queue[|queue| - 1];
      queue := queue[..|queue| - 1];
      if !answered || reply == Dropped {
        return ClaimError;
      }
      var queued := id in rows && rows[id].status == Queued;
      if queued {
        rows := rows[id := rows[id].(status := Running)];
      }
      if reply == Unseen {
        return ClaimError;
      }
      if !queued {
        return NoJob;
      }
      if reachable {
        events := events + [Event(id, rows[id].leadId, rows[id].jobType, Running)];
      }
      return Job(id);
    }

    method Finish(id: string, status: Status, reply: Reply, reachable: bool) returns (ok: bool)
      modifies this
      ensures (Contents(), ok) == FinishJob(old(Contents()), id, status, reply, reachable)
      ensures reply != Dropped && id in old(rows) ==> rows == old(rows)[id := old(rows)[id].(status := status)]
      ensures reply == Dropped || id !in old(rows) ==> rows == old(rows)
      ensures events == old(events) + if reply == Seen && id in rows && reachable then [EventOf(rows, id)] else []
      ensures ok <==> reply == Seen && id in old(rows) && reachable
    {
      if reply == Dropped {
        return false;
      }
      if id in rows {
        rows := rows[id := rows[id].(status := status)];
      }
      if reply == Unseen || id !in rows {
        return false;
      }
      if reachable {
        events := events + [Event(id, rows[id].leadId, rows[id].jobType, status)];
      }
      return reachable;
    }

    method Complete(id: string, reply: Reply, reachable: bool) returns (ok: bool)
      modifies this
      ensures (Contents(), ok) == FinishJob(old(Contents()), id, Completed, reply, reachable)
      ensures reply != Dropped && id in old(rows) ==> rows == old(rows)[id := old(rows)[id].(status := Completed)]
      ensures reply == Dropped || id !in old(rows) ==> rows == old(rows)
      ensures events == old(events) + if reply == Seen && id in rows && reachable then [EventOf(rows, id)] else []
      ensures ok <==> reply == Seen && id in old(rows) && reachable
    {
      ok := Finish(id, Completed, reply, reachable);
    }

    method Fail(id: string, reply: Reply, reachable: bool) returns (ok: bool)
      modifies this
      ensures (Contents(), ok) == FinishJob(old(Contents()), id, Failed, reply, reachable)
      ensures reply != Dropped && id in old(rows) ==> rows == old(rows)[id := old(rows)[id].(status := Failed)]
      ensures reply == Dropped || id !in old(rows) ==> rows == old(rows)
      ensures events == old(events) + if reply == Seen && id in rows && reachable then [EventOf(rows, id)] else []
      ensures ok <==> reply == Seen && id in old(rows) && reachable
    {
      ok := Finish(id, Failed, reply, reachable);
    }
  }

  /** The worker's loop, round after round until it is told to stop; a failed Complete is not followed by Fail. */
  method Work(store: Store, rounds: seq<Round>)
    modifies store
    ensures store.Contents() == Iterations(old(store.Contents()), rounds)
  {
    for i := 0 to |rounds|
      invariant store.Contents() == Iterations(old(store.Contents()), rounds[..i])
    {
      assert rounds[..i + 1][..i] == rounds[..i];
      var r := rounds[i];
      var job := store.ClaimNext(r.answered, r.claim, r.announced);
      if job.Job? {
        var jobType := store.rows[job.id].jobType;
        if jobType == EMBED || jobType == SCORE {
          var ok: bool;
          if r.works {
            ok := store.Complete(job.id, r.finish, r.ended);
          } else {
            ok := store.Fail(job.id, r.finish, r.ended);
          }
        } else {
          var ok := store.Fail(job.id, r.finish, r.ended);
        }
      }
    }
    assert rounds[..|rounds|] == rounds;
  }
}

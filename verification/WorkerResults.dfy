/** The main results about jobs, for every number of workers and every sequence of actions. */
module WorkerResults {
  import opened Options
  import opened Jobs
  import opened WorkerProtocol
  import opened WorkerInvariant
  import opened WorkerOutcomes

  lemma {:induction false} NobodyTallies<T>(xs: seq<T>, idOf: T -> Option<string>, id: string)
    requires forall i :: 0 <= i < |xs| ==> idOf(xs[i]) != Some(id)
    ensures Tally(xs, idOf, id) == 0
  {
    if xs != [] {
      NobodyTallies(xs[1..], idOf, id);
    }
  }

  lemma StartKeepsInv(workers: nat)
    ensures Inv(Start(workers))
  {
    StartIsOwned(workers);
    StartIsConserved(workers);
    StartIsCausal(workers);
  }

  lemma StartIsOwned(workers: nat)
    ensures Ownership(Start(workers))
  {
  }

  lemma StartIsCausal(workers: nat)
    ensures Causality(Start(workers))
  {
  }

  lemma StartIsConserved(workers: nat)
    ensures Conserved(Start(workers))
  {
    var s := Start(workers);
    forall id
      ensures CopiesBalance(s, id) && HandsBalance(s, id) && LedgerFits(s, id)
    {
      NobodyTallies(s.workers, ToClaim, id);
      NobodyTallies(s.workers, Held, id);
    }
  }

  lemma {:induction false} ExecKeepsInv(s: State, actions: seq<Action>)
    requires Inv(s)
    ensures Inv(Exec(s, actions))
    decreases |actions|
  {
    if actions != [] {
      StepKeepsInv(s, actions[0]);
      ExecKeepsInv(Step(s, actions[0]), actions[1..]);
    }
  }

  /**
   * However the workers interleave, whatever faults strike, and even with duplicate ids in the list: a
   * row's statuses are a prefix of queued, running, and one end; and it is handed out at most once.
   */
  lemma JobsFollowOnePath(workers: nat, actions: seq<Action>)
    ensures var s := Exec(Start(workers), actions);
      && s.history.Keys == s.db.rows.Keys
      && (forall id :: id in s.db.rows ==> s.history[id] == Path(s.db.rows[id].status))
      && (forall i, j :: 0 <= i < j < |s.claims| ==> s.claims[i] != s.claims[j])
  {
    StartKeepsInv(workers);
    ExecKeepsInv(Start(workers), actions);
    var s := Exec(Start(workers), actions);
    forall i, j | 0 <= i < j < |s.claims|
      ensures s.claims[i] != s.claims[j]
    {
      if s.claims[i] == s.claims[j] {
        CountsTwice(s.claims, i, j);
      }
    }
  }

  lemma CountsTwice(xs: seq<string>, i: nat, j: nat)
    requires i < j < |xs| && xs[i] == xs[j]
    ensures multiset(xs)[xs[i]] >= 2
  {
    assert xs == xs[..j] + [xs[j]] + xs[j + 1..];
    assert xs[..j][i] == xs[i];
  }

  /** A finished row never changes again. */
  lemma {:induction false} EndsAreFinal(s: State, actions: seq<Action>, id: string)
    requires Inv(s) && id in s.db.rows && Terminal(s.db.rows[id].status)
    ensures id in Exec(s, actions).db.rows && Exec(s, actions).db.rows[id] == s.db.rows[id]
    decreases |actions|
  {
    if actions != [] {
      StepKeepsInv(s, actions[0]);
      StepKeepsEnd(s, actions[0], id);
      EndsAreFinal(Step(s, actions[0]), actions[1..], id);
    }
  }

  /** The row is finished, and still the same. */
  predicate EndKept(rows: Rows, rows': Rows, id: string) {
    id in rows && Terminal(rows[id].status) ==> id in rows' && rows'[id] == rows[id]
  }

  lemma ClaimKeepsEnd(s: State, w: nat, reply: Reply, id: string)
    ensures EndKept(s.db.rows, Step(s, Claim(w, reply)).db.rows, id)
  {
  }

  lemma FinishKeepsEnd(s: State, w: nat, reply: Reply, id: string)
    requires Ownership(s)
    ensures EndKept(s.db.rows, Step(s, Finish(w, reply)).db.rows, id)
  {
    if w < |s.workers| && s.workers[w].Finishing? {
      assert RowIs(s.db.rows, s.workers[w].id, Running);
    }
  }

  lemma OtherStepsKeepEnd(s: State, a: Action, id: string)
    requires !a.Claim? && !a.Finish?
    ensures EndKept(s.db.rows, Step(s, a).db.rows, id)
  {
  }

  lemma StepKeepsEnd(s: State, a: Action, id: string)
    requires Ownership(s)
    ensures EndKept(s.db.rows, Step(s, a).db.rows, id)
  {
    match a
    case Claim(w, reply) => ClaimKeepsEnd(s, w, reply, id);
    case Finish(w, reply) => FinishKeepsEnd(s, w, reply, id);
    case _ => OtherStepsKeepEnd(s, a, id);
  }

  /** Why the worker must not answer a failed Complete with Fail: the update may have been applied. */
  lemma FailAfterCompleteLeavesThePath(s: State, w: nat)
    requires Ownership(s) && w < |s.workers| && s.workers[w].Finishing? && s.workers[w].status == Completed
    ensures var id := s.workers[w].id;
      var next := Write(StepFinish(s, w, Unseen), id, Failed);
      next.history[id] == [Queued, Running, Completed, Failed] && !OnePath(next.db.rows, next.history)
  {
    var id := s.workers[w].id;
    var next := Write(StepFinish(s, w, Unseen), id, Failed);
    assert RowIs(s.db.rows, id, Running) && s.history[id] == [Queued, Running];
    assert next.history[id] == [Queued, Running, Completed, Failed];
    assert next.db.rows[id].status == Failed;
  }

  // Conservation

  predicate FaultFree(a: Action) {
    match a
    case PushId(_, delivery) => delivery == Once
    case PopId(_, answered) => answered
    case Claim(_, reply) => reply == Seen
    case Finish(_, reply) => reply == Seen
    case Crash(_) => false
    case _ => true
  }

  ghost predicate Unharmed(s: State) {
    s.ledger.lost == multiset{} && s.ledger.doubled == multiset{} && s.ledger.stranded == multiset{}
  }

  lemma {:induction false} FaultFreeRunsAreUnharmed(s: State, actions: seq<Action>)
    requires Unharmed(s) && forall a :: a in actions ==> FaultFree(a)
    ensures Unharmed(Exec(s, actions))
    decreases |actions|
  {
    if actions != [] {
      FaultFreeStepIsUnharmed(s, actions[0]);
      FaultFreeRunsAreUnharmed(Step(s, actions[0]), actions[1..]);
    }
  }

  lemma FaultFreeStepIsUnharmed(s: State, a: Action)
    requires Unharmed(s) && FaultFree(a)
    ensures Unharmed(Step(s, a))
  {
  }

  /**
   * Without faults each queued row's id is in exactly one place on its way to a worker, and the running
   * rows are exactly those in a worker's hands.
   */
  lemma WorkIsConserved(workers: nat, actions: seq<Action>, id: string)
    requires forall a :: a in actions ==> FaultFree(a)
    ensures var s := Exec(Start(workers), actions);
      && (RowIs(s.db.rows, id, Queued) ==> Copies(s, id) == 1)
      && Tally(s.workers, Held, id) == if RowIs(s.db.rows, id, Running) then 1 else 0
  {
    StartKeepsInv(workers);
    ExecKeepsInv(Start(workers), actions);
    FaultFreeRunsAreUnharmed(Start(workers), actions);
    var s := Exec(Start(workers), actions);
    assert CopiesBalance(s, id) && HandsBalance(s, id) && LedgerFits(s, id);
  }

  /** With faults, each missing or surplus copy, and each running row out of hand, is one recorded fault. */
  lemma FaultsAccountForTheRest(workers: nat, actions: seq<Action>, id: string)
    ensures var s := Exec(Start(workers), actions);
      && (RowIs(s.db.rows, id, Queued) ==> Copies(s, id) + s.ledger.lost[id] == 1 + s.ledger.doubled[id])
      && (RowIs(s.db.rows, id, Running) ==> Tally(s.workers, Held, id) + s.ledger.stranded[id] == 1)
      && (!RowIs(s.db.rows, id, Running) ==> Tally(s.workers, Held, id) == 0 == s.ledger.stranded[id])
  {
    StartKeepsInv(workers);
    ExecKeepsInv(Start(workers), actions);
    var s := Exec(Start(workers), actions);
    assert CopiesBalance(s, id) && HandsBalance(s, id) && LedgerFits(s, id);
  }

  // Causality

  /** A row is completed only if its work succeeded, and failed only if it did not, for both types of jobs. */
  lemma RowsEndAsTheirWork(workers: nat, actions: seq<Action>, id: string)
    ensures var s := Exec(Start(workers), actions);
      && (RowIs(s.db.rows, id, Completed) ==> id in s.results)
      && (RowIs(s.db.rows, id, Failed) ==> id !in s.results)
  {
    StartKeepsInv(workers);
    ExecKeepsOutcomes(Start(workers), actions);
    assert RowOutcome(Exec(Start(workers), actions).db.rows, Exec(Start(workers), actions).results, id);
  }

  /**
   * Per job each status is announced at most once and running before the end; an end is announced only
   * when the row has it, completed only when the work succeeded and its result is stored, failed only when not.
   */
  lemma AnnouncementsAreCausal(workers: nat, actions: seq<Action>)
    ensures var s := Exec(Start(workers), actions);
      && EventsInOrder(s.db.events)
      && (forall e :: e in s.db.events ==>
            && EventIsTrue(s.db.rows, e)
            && (e.status == Completed ==> e.jobId in s.results)
            && (e.status == Failed ==> e.jobId !in s.results))
  {
    StartKeepsInv(workers);
    ExecKeepsInv(Start(workers), actions);
    var s := Exec(Start(workers), actions);
    forall e | e in s.db.events
      ensures EventIsTrue(s.db.rows, e)
      ensures e.status == Completed ==> e.jobId in s.results
      ensures e.status == Failed ==> e.jobId !in s.results
    {
      assert EventIsTrue(s.db.rows, e);
      RowsEndAsTheirWork(workers, actions, e.jobId);
    }
  }

  predicate Said(events: seq<Event>, id: string, status: Status) {
    exists i :: 0 <= i < |events| && events[i].jobId == id && events[i].status == status
  }

  /** Every end was announced after running was. */
  predicate EndsFollowRunning(events: seq<Event>) {
    forall j :: 0 <= j < |events| && Terminal(events[j].status) ==> Said(events[..j], events[j].jobId, Running)
  }

  predicate PastAnnouncing(pc: Worker) {
    pc.Working? || pc.Finishing? || pc.Announcing?
  }

  predicate RunningIsSaid(workers: seq<Worker>, events: seq<Event>) {
    && EndsFollowRunning(events)
    && (forall w :: 0 <= w < |workers| && PastAnnouncing(workers[w]) ==> Said(events, workers[w].id, Running))
  }

  lemma SaidStays(events: seq<Event>, e: Event, id: string)
    requires Said(events, id, Running)
    ensures Said(events + [e], id, Running)
  {
    var i :| 0 <= i < |events| && events[i].jobId == id && events[i].status == Running;
    assert (events + [e])[i] == events[i];
  }

  /** One more announcement: of running, of queued, or of the end of a job whose running was announced. */
  lemma AnnouncementKeepsSaid(workers: seq<Worker>, events: seq<Event>, e: Event)
    requires RunningIsSaid(workers, events) && (Terminal(e.status) ==> Said(events, e.jobId, Running))
    ensures RunningIsSaid(workers, events + [e])
  {
    var next := events + [e];
    assert next[..|events|] == events;
    assert forall j :: 0 <= j < |events| ==> next[..j] == events[..j] && next[j] == events[j];
    forall w | 0 <= w < |workers| && PastAnnouncing(workers[w])
      ensures Said(next, workers[w].id, Running)
    {
      SaidStays(events, e, workers[w].id);
    }
  }

  predicate IsAnnouncement(a: Action) {
    a.AnnounceQueued? || a.AnnounceRunning? || a.AnnounceEnd?
  }

  /** Nothing is published, and no worker gets past announcing. */
  predicate MovesQuietly(s: State, next: State) {
    && next.db.events == s.db.events && |next.workers| == |s.workers|
    && (forall w :: 0 <= w < |s.workers| && PastAnnouncing(next.workers[w]) ==>
          PastAnnouncing(s.workers[w]) && s.workers[w].id == next.workers[w].id)
  }

  lemma TakingIsQuiet(s: State, a: Action)
    requires a.Insert? || a.PushId? || a.PopId? || a.Claim?
    ensures MovesQuietly(s, Step(s, a))
  {
    match a
    case Claim(w, reply) => if w < |s.workers| && s.workers[w].Popped? { ClaimIsQuiet(s, w, reply); }
    case _ =>
  }

  lemma ClaimIsQuiet(s: State, w: nat, reply: Reply)
    requires w < |s.workers| && s.workers[w].Popped?
    ensures MovesQuietly(s, StepClaim(s, w, reply))
  {
  }

  lemma WorkingIsQuiet(s: State, a: Action)
    requires a.Execute? || a.Finish? || a.Crash?
    ensures MovesQuietly(s, Step(s, a))
  {
    match a
    case Execute(w, success) =>
    case Finish(w, reply) => if w < |s.workers| && s.workers[w].Finishing? { FinishIsQuiet(s, w, reply); }
    case Crash(w) =>
  }

  lemma FinishIsQuiet(s: State, w: nat, reply: Reply)
    requires w < |s.workers| && s.workers[w].Finishing?
    ensures MovesQuietly(s, StepFinish(s, w, reply))
  {
  }

  lemma QuietStepKeepsSaid(s: State, a: Action)
    requires RunningIsSaid(s.workers, s.db.events) && !IsAnnouncement(a)
    ensures RunningIsSaid(Step(s, a).workers, Step(s, a).db.events)
  {
    if a.Insert? || a.PushId? || a.PopId? || a.Claim? {
      TakingIsQuiet(s, a);
    } else {
      WorkingIsQuiet(s, a);
    }
  }

  lemma RunningKeepsSaid(s: State, w: nat)
    requires RunningIsSaid(s.workers, s.db.events) && Ownership(s) && w < |s.workers| && s.workers[w].Claimed?
    ensures var next := StepAnnounceRunning(s, w, true); RunningIsSaid(next.workers, next.db.events)
  {
    var id := s.workers[w].id;
    assert RowIs(s.db.rows, id, Running);
    var e := Event(id, s.db.rows[id].leadId, s.db.rows[id].jobType, Running);
    AnnouncementKeepsSaid(s.workers, s.db.events, e);
    assert (s.db.events + [e])[|s.db.events|] == e;
  }

  lemma EndKeepsSaid(s: State, w: nat, reachable: bool)
    requires RunningIsSaid(s.workers, s.db.events) && w < |s.workers| && s.workers[w].Announcing?
    ensures var next := StepAnnounceEnd(s, w, reachable); RunningIsSaid(next.workers, next.db.events)
  {
    var id := s.workers[w].id;
    if id in s.db.rows && reachable {
      var row := s.db.rows[id];
      AnnouncementKeepsSaid(s.workers, s.db.events, Event(id, row.leadId, row.jobType, s.workers[w].status));
    }
  }

  lemma QueuedKeepsSaid(s: State, p: nat, reachable: bool)
    requires RunningIsSaid(s.workers, s.db.events) && p < |s.producers| && s.producers[p].Pushed?
    ensures var next := StepAnnounceQueued(s, p, reachable); RunningIsSaid(next.workers, next.db.events)
  {
    var id := s.producers[p].id;
    if id in s.db.rows && reachable {
      AnnouncementKeepsSaid(s.workers, s.db.events, Event(id, s.db.rows[id].leadId, s.db.rows[id].jobType, Queued));
    }
  }

  lemma AnnouncingStepKeepsSaid(s: State, a: Action)
    requires RunningIsSaid(s.workers, s.db.events) && Ownership(s)
    requires IsAnnouncement(a) && (a.AnnounceRunning? ==> a.reachable)
    ensures RunningIsSaid(Step(s, a).workers, Step(s, a).db.events)
  {
    match a
    case AnnounceQueued(p, up) => if p < |s.producers| && s.producers[p].Pushed? { QueuedKeepsSaid(s, p, up); }
    case AnnounceRunning(w, _) => if w < |s.workers| && s.workers[w].Claimed? { RunningKeepsSaid(s, w); }
    case AnnounceEnd(w, up) => if w < |s.workers| && s.workers[w].Announcing? { EndKeepsSaid(s, w, up); }
  }

  lemma {:induction false} ExecKeepsSaid(s: State, actions: seq<Action>)
    requires Inv(s) && RunningIsSaid(s.workers, s.db.events)
    requires forall a :: a in actions && a.AnnounceRunning? ==> a.reachable
    ensures RunningIsSaid(Exec(s, actions).workers, Exec(s, actions).db.events)
    decreases |actions|
  {
    if actions != [] {
      StepKeepsInv(s, actions[0]);
      if IsAnnouncement(actions[0]) {
        AnnouncingStepKeepsSaid(s, actions[0]);
      } else {
        QuietStepKeepsSaid(s, actions[0]);
      }
      ExecKeepsSaid(Step(s, actions[0]), actions[1..]);
    }
  }

  /** When no announcement of running is lost, no end is announced without it. */
  lemma EndsAreAnnouncedAfterRunning(workers: nat, actions: seq<Action>)
    requires forall a :: a in actions && a.AnnounceRunning? ==> a.reachable
    ensures EndsFollowRunning(Exec(Start(workers), actions).db.events)
  {
    StartKeepsInv(workers);
    ExecKeepsSaid(Start(workers), actions);
  }

  /** Ids are popped in the order they were pushed. */
  lemma QueueIsFifo(workers: nat, actions: seq<Action>)
    ensures var s := Exec(Start(workers), actions); s.pops <= s.pushes && s.pushes[|s.pops|..] == Reversed(s.db.queue)
  {
    StartKeepsInv(workers);
    ExecKeepsInv(Start(workers), actions);
  }

  // Drain

  predicate IsWorkerAction(a: Action) {
    !a.Insert? && !a.PushId? && !a.AnnounceQueued?
  }

  function Rank(pc: Worker): nat {
    match pc
    case Idle => 0
    case Popped(_) => 5
    case Claimed(_) => 4
    case Working(_) => 3
    case Finishing(_, _) => 2
    case Announcing(_, _) => 1
  }

  function Ranks(workers: seq<Worker>): nat {
    if workers == [] then 0 else Rank(workers[0]) + Ranks(workers[1..])
  }

  /** What is left to do when nothing more is enqueued. */
  function Measure(s: State): nat {
    6 * |s.db.queue| + Ranks(s.workers)
  }

  lemma {:induction false} RanksUpdated(workers: seq<Worker>, w: nat, pc: Worker)
    requires w < |workers|
    ensures Ranks(workers[w := pc]) == Ranks(workers) - Rank(workers[w]) + Rank(pc)
  {
    if w == 0 {
      assert workers[w := pc][1..] == workers[1..];
    } else {
      assert workers[w := pc][1..] == workers[1..][w - 1 := pc];
      RanksUpdated(workers[1..], w - 1, pc);
    }
  }

  lemma RankFalls(s: State, next: State, w: nat, pc: Worker)
    requires w < |s.workers| && next.workers == s.workers[w := pc]
    requires 6 * |next.db.queue| + Rank(pc) < 6 * |s.db.queue| + Rank(s.workers[w])
    ensures Measure(next) < Measure(s)
  {
    RanksUpdated(s.workers, w, pc);
  }

  lemma ClaimingMakesProgress(s: State, a: Action)
    requires (a.PopId? || a.Claim? || a.AnnounceRunning?) && Step(s, a) != s
    ensures Measure(Step(s, a)) < Measure(s)
  {
    var next, w := Step(s, a), a.worker;
    match a
    case PopId(_, answered) => RankFalls(s, next, w, if answered then Popped(Tail(s.db)) else Idle);
    case Claim(_, reply) =>
      var id := s.workers[w].id;
      RankFalls(s, next, w, if reply == Seen && HasStatus(s.db, id, Queued) then Claimed(id) else Idle);
    case AnnounceRunning(_, _) => RankFalls(s, next, w, Working(s.workers[w].id));
  }

  lemma WorkingMakesProgress(s: State, a: Action)
    requires (a.Execute? || a.Finish? || a.AnnounceEnd?) && Step(s, a) != s
    ensures Measure(Step(s, a)) < Measure(s)
  {
    var next, w := Step(s, a), a.worker;
    match a
    case Execute(_, _) => RankFalls(s, next, w, next.workers[w]);
    case Finish(_, reply) =>
      RankFalls(s, next, w, if reply == Seen then Announcing(s.workers[w].id, s.workers[w].status) else Idle);
    case AnnounceEnd(_, _) => RankFalls(s, next, w, Idle);
  }

  lemma CrashMakesProgress(s: State, w: nat)
    requires w < |s.workers| && !s.workers[w].Idle?
    ensures Measure(StepCrash(s, w)) < Measure(s)
  {
    assert StepCrash(s, w).workers == s.workers[w := Idle] && StepCrash(s, w).db == s.db;
    RankFalls(s, StepCrash(s, w), w, Idle);
  }

  lemma IdleCrashIsNothing(s: State, w: nat)
    requires w < |s.workers| && s.workers[w].Idle?
    ensures StepCrash(s, w) == s
  {
    assert s.workers[w := Idle] == s.workers;
  }

  /** Every step of a worker that does anything, faulty or not, leaves less to do. */
  lemma WorkerStepMakesProgress(s: State, a: Action)
    requires IsWorkerAction(a) && Step(s, a) != s
    ensures Measure(Step(s, a)) < Measure(s)
  {
    if a.PopId? || a.Claim? || a.AnnounceRunning? {
      ClaimingMakesProgress(s, a);
    } else if a.Crash? {
      if s.workers[a.worker].Idle? {
        IdleCrashIsNothing(s, a.worker);
      } else {
        CrashMakesProgress(s, a.worker);
      }
    } else {
      WorkingMakesProgress(s, a);
    }
  }

  function Effective(s: State, actions: seq<Action>): nat
    decreases |actions|
  {
    if actions == [] then 0
    else (if Step(s, actions[0]) != s then 1 else 0) + Effective(Step(s, actions[0]), actions[1..])
  }

  /** Under any schedule the workers take a bounded number of steps that do anything. */
  lemma {:induction false} DrainIsBounded(s: State, actions: seq<Action>)
    requires forall a :: a in actions ==> IsWorkerAction(a)
    ensures Effective(s, actions) + Measure(Exec(s, actions)) <= Measure(s)
    decreases |actions|
  {
    if actions != [] {
      if Step(s, actions[0]) != s {
        WorkerStepMakesProgress(s, actions[0]);
      }
      DrainIsBounded(Step(s, actions[0]), actions[1..]);
    }
  }

  /** No worker can do anything. */
  ghost predicate Quiescent(s: State) {
    forall a :: IsWorkerAction(a) && FaultFree(a) ==> Step(s, a) == s
  }

  /** What worker `w` does next when nothing fails. */
  function NextMove(pc: Worker, w: nat): Action {
    match pc
    case Idle => PopId(w, true)
    case Popped(_) => Claim(w, Seen)
    case Claimed(_) => AnnounceRunning(w, true)
    case Working(_) => Execute(w, true)
    case Finishing(_, _) => Finish(w, Seen)
    case Announcing(_, _) => AnnounceEnd(w, true)
  }

  lemma BusyWorkerCanMove(s: State, w: nat)
    requires w < |s.workers| && (!s.workers[w].Idle? || s.db.queue != [])
    ensures Step(s, NextMove(s.workers[w], w)) != s
  {
    var next := Step(s, NextMove(s.workers[w], w));
    assert next.workers[w] != s.workers[w];
  }

  lemma QuiescentWorkersAreIdle(s: State, w: nat)
    requires Quiescent(s) && w < |s.workers|
    ensures s.workers[w].Idle? && s.db.queue == []
  {
    var move := NextMove(s.workers[w], w);
    assert IsWorkerAction(move) && FaultFree(move);
    if !s.workers[w].Idle? || s.db.queue != [] {
      BusyWorkerCanMove(s, w);
    }
  }

  /** And when they stop, without faults and with every enqueuer past its push, every row is completed or failed. */
  lemma DrainEndsEveryJob(workers: nat, actions: seq<Action>, id: string)
    requires 0 < workers && forall a :: a in actions ==> FaultFree(a)
    requires var s := Exec(Start(workers), actions); Quiescent(s) && forall p :: p in s.producers ==> !p.Inserted?
    ensures var s := Exec(Start(workers), actions); id in s.db.rows ==> Terminal(s.db.rows[id].status)
  {
    StartKeepsInv(workers);
    ExecKeepsInv(Start(workers), actions);
    FaultFreeRunsAreUnharmed(Start(workers), actions);
    WorkersStay(Start(workers), actions);
    var s := Exec(Start(workers), actions);
    QuiescentWorkersAreIdle(s, 0);
    forall w | 0 <= w < |s.workers|
      ensures s.workers[w].Idle?
    {
      QuiescentWorkersAreIdle(s, w);
    }
    NobodyTallies(s.producers, ToPush, id);
    NobodyTallies(s.workers, ToClaim, id);
    NobodyTallies(s.workers, Held, id);
    assert CopiesBalance(s, id) && HandsBalance(s, id) && LedgerFits(s, id);
  }

  lemma {:induction false} WorkersStay(s: State, actions: seq<Action>)
    ensures |Exec(s, actions).workers| == |s.workers|
    decreases |actions|
  {
    if actions != [] {
      assert |Step(s, actions[0]).workers| == |s.workers|;
      WorkersStay(Step(s, actions[0]), actions[1..]);
    }
  }

  // The store's methods are the protocol's steps, taken without interruption

  lemma ExecAt(s: State, run: seq<Action>, i: nat) returns (next: State)
    requires i < |run|
    ensures next == Step(s, run[i])
    ensures Exec(s, run[i..]) == Exec(next, run[i + 1..])
  {
    next := Step(s, run[i]);
    assert run[i..][1..] == run[i + 1..];
  }

  function Delivered(reached: bool): Delivery {
    if reached then Once else Never
  }

  lemma EnqueueIsARun(s: State, id: string, jobType: string, leadId: string, pushed: bool, published: bool)
    requires Insertable(s.db, id, jobType)
    ensures var p := |s.producers|;
      Exec(s, [Insert(id, jobType, leadId), PushId(p, Delivered(pushed)), AnnounceQueued(p, published)]).db
      == EnqueueJob(s.db, id, jobType, leadId, pushed, published)
  {
    var p := |s.producers|;
    var run := [Insert(id, jobType, leadId), PushId(p, Delivered(pushed)), AnnounceQueued(p, published)];
    var s1 := ExecAt(s, run, 0);
    var s2 := ExecAt(s1, run, 1);
    var s3 := ExecAt(s2, run, 2);
    assert run[0..] == run && run[3..] == [];
  }

  /** What a worker that claimed has in hand. */
  function InWork(job: Claim): Worker {
    match job
    case Job(id) => Working(id)
    case _ => Idle
  }

  lemma ClaimIsARun(s: State, w: nat, answered: bool, reply: Reply, reachable: bool)
    requires s.history.Keys == s.db.rows.Keys && w < |s.workers| && s.workers[w].Idle?
    ensures var end := Step(Step(Step(s, PopId(w, answered)), Claim(w, reply)), AnnounceRunning(w, reachable));
      && end.db == ClaimOldest(s.db, answered, reply, reachable).0
      && |end.workers| == |s.workers|
      && end.workers[w] == InWork(ClaimOldest(s.db, answered, reply, reachable).1)
      && end.history.Keys == s.history.Keys
  {
    var popped := Step(s, PopId(w, answered));
    var claimed := Step(popped, Claim(w, reply));
    if s.db.queue == [] || !answered {
      assert claimed == popped;
    } else {
      assert popped.workers[w] == Popped(Tail(s.db)) && popped.db == Pop(s.db);
      assert claimed.db == if reply == Dropped then popped.db else ClaimRow(Pop(s.db), Tail(s.db));
    }
  }

  lemma FinishIsARun(s: State, w: nat, success: bool, reply: Reply, reachable: bool)
    requires w < |s.workers| && s.history.Keys == s.db.rows.Keys
    requires s.workers[w].Idle? || (s.workers[w].Working? && s.workers[w].id in s.db.rows)
    ensures var end := Step(Step(Step(s, Execute(w, success)), Finish(w, reply)), AnnounceEnd(w, reachable));
      end.db == match s.workers[w]
        case Working(id) => FinishJob(s.db, id, Outcome(s.db, success, id), reply, reachable).0
        case _ => s.db
  {
    var worked := Step(s, Execute(w, success));
    var finished := Step(worked, Finish(w, reply));
    if s.workers[w].Working? {
      var id := s.workers[w].id;
      assert worked.workers[w] == Finishing(id, Outcome(s.db, success, id)) && worked.db == s.db;
      assert finished.db == if reply == Dropped then s.db else SetStatus(s.db, id, Outcome(s.db, success, id));
    } else {
      assert finished == s;
    }
  }

  /** One round of the worker's loop, with whatever faults, is the six steps of the protocol in a row. */
  lemma IterationIsARun(s: State, w: nat, r: Round)
    requires s.history.Keys == s.db.rows.Keys && w < |s.workers| && s.workers[w].Idle?
    ensures Exec(s, [PopId(w, r.answered), Claim(w, r.claim), AnnounceRunning(w, r.announced),
                     Execute(w, r.works), Finish(w, r.finish), AnnounceEnd(w, r.ended)]).db == Iteration(s.db, r)
  {
    var run := [PopId(w, r.answered), Claim(w, r.claim), AnnounceRunning(w, r.announced),
                Execute(w, r.works), Finish(w, r.finish), AnnounceEnd(w, r.ended)];
    ClaimIsARun(s, w, r.answered, r.claim, r.announced);
    FinishIsARun(Step(Step(Step(s, run[0]), run[1]), run[2]), w, r.works, r.finish, r.ended);
    SixSteps(s, run);
  }

  lemma SixSteps(s: State, run: seq<Action>)
    requires |run| == 6
    ensures Exec(s, run) == Step(Step(Step(Step(Step(Step(s, run[0]), run[1]), run[2]), run[3]), run[4]), run[5])
  {
    var s1 := ExecAt(s, run, 0);
    var s2 := ExecAt(s1, run, 1);
    var s3 := ExecAt(s2, run, 2);
    var s4 := ExecAt(s3, run, 3);
    var s5 := ExecAt(s4, run, 4);
    var s6 := ExecAt(s5, run, 5);
    assert run[0..] == run && run[6..] == [];
  }

  /** Six steps bring a job to the point where its Complete is due. */
  function ToCompletion(id: string, leadId: string): seq<Action> {
    [Insert(id, EMBED, leadId), PushId(0, Once), PopId(0, true), Claim(0, Seen),
     AnnounceRunning(0, true), Execute(0, true)]
  }

  lemma FirstJobIsQueued(id: string, leadId: string) returns (s: State)
    ensures s == Step(Step(Start(1), Insert(id, EMBED, leadId)), PushId(0, Once))
    ensures s.db.queue == [id] && s.db.rows == map[id := Row(EMBED, leadId, Queued)] && s.history.Keys == {id}
    ensures |s.workers| == 1 && s.workers[0] == Idle
  {
    var inserted := StepInsert(Start(1), id, EMBED, leadId);
    assert inserted.producers == [Inserted(id)];
    s := StepPush(inserted, 0, Once);
  }

  lemma EmbedJobIsFinishing(s: State, w: nat, id: string)
    requires w < |s.workers| && s.workers[w] == Working(id) && id in s.db.rows && s.db.rows[id].jobType == EMBED
    ensures var next := Step(s, Execute(w, true));
      |next.workers| == |s.workers| && next.workers[w] == Finishing(id, Completed)
  {
  }

  lemma CompletionIsReached(id: string, leadId: string)
    ensures var s := Exec(Start(1), ToCompletion(id, leadId));
      |s.workers| == 1 && s.workers[0] == Finishing(id, Completed) && Ownership(s)
  {
    var run := ToCompletion(id, leadId);
    StartKeepsInv(1);
    ExecKeepsInv(Start(1), run);
    SixSteps(Start(1), run);
    var queued := FirstJobIsQueued(id, leadId);
    ClaimIsARun(queued, 0, true, Seen, true);
    var working := Step(Step(Step(queued, PopId(0, true)), Claim(0, Seen)), AnnounceRunning(0, true));
    EmbedJobIsFinishing(working, 0, id);
  }

  /** So it does happen: after a Complete whose answer is lost, a Fail would undo a completed job. */
  lemma FailAfterCompleteIsReached(id: string, leadId: string)
    ensures var s := Exec(Start(1), ToCompletion(id, leadId));
      && |s.workers| == 1 && s.workers[0] == Finishing(id, Completed)
      && var failed := Write(StepFinish(s, 0, Unseen), id, Failed);
      id in failed.history && failed.history[id] == [Queued, Running, Completed, Failed]
  {
    CompletionIsReached(id, leadId);
    FailAfterCompleteLeavesThePath(Exec(Start(1), ToCompletion(id, leadId)), 0);
  }
}

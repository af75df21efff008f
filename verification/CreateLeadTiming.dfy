/** When exactly the create-lead handlers keep to one lead per key: the timing of `OneLeadPerKey` is needed. */
module CreateLeadTiming {
  import opened Options
  import opened Redis
  import opened Idempotency
  import opened CreateLeadProtocol

  // ---------------------------------------------------------------------------------------------
  // Without it, a lead is left behind that no stored response will ever cover
  // ---------------------------------------------------------------------------------------------

  /** The span is open, and no run that could close it holds the lock. */
  ghost predicate Abandoned(s: State, i: nat) {
    && i < |s.spans| && s.spans[i].until.None?
    && (forall t :: IsCreated(s, t) && s.runs[t].pc.span == i ==> !Holds(s.slot, s.now, t))
  }

  lemma BeginKeepsAbandoned(cfg: Config, s: State, token: string, delivered: bool, i: nat)
    requires Abandoned(s, i) && At(s, token, Ready)
    ensures Abandoned(StepBegin(cfg, s, token, delivered), i)
  {
    var next := StepBegin(cfg, s, token, delivered);
    assert forall t :: IsCreated(next, t) ==> IsCreated(s, t) && t != token;
  }

  lemma CompleteKeepsAbandoned(cfg: Config, s: State, token: string, executed: bool, i: nat)
    requires Abandoned(s, i) && IsCreated(s, token)
    ensures Abandoned(StepComplete(cfg, s, token, executed), i)
  {
    var next := StepComplete(cfg, s, token, executed);
    assert forall t :: IsCreated(next, t) ==> IsCreated(s, t);
  }

  lemma AbortKeepsAbandoned(s: State, token: string, executed: bool, i: nat)
    requires Abandoned(s, i) && At(s, token, Aborting)
    ensures Abandoned(StepAbort(s, token, executed), i)
  {
    var next := StepAbort(s, token, executed);
    assert forall t :: IsCreated(next, t) ==> IsCreated(s, t);
  }

  lemma InsertKeepsAbandoned(s: State, token: string, lead: string, i: nat)
    requires Abandoned(s, i) && At(s, token, Creating)
    ensures Abandoned(StepInsert(s, token, lead), i)
  {
    var next := StepInsert(s, token, lead);
    assert forall t :: IsCreated(next, t) ==> t == token || IsCreated(s, t);
  }

  lemma UnseenKeepsAbandoned(s: State, token: string, lead: string, i: nat)
    requires Abandoned(s, i) && At(s, token, Creating)
    ensures Abandoned(StepInsertUnseen(s, token, lead), i)
  {
    var next := StepInsertUnseen(s, token, lead);
    assert forall t :: IsCreated(next, t) ==> IsCreated(s, t);
  }

  /** Steps that change no key and create nothing; time may pass. */
  lemma QuietKeepsAbandoned(s: State, next: State, i: nat)
    requires Abandoned(s, i) && next.spans == s.spans && next.slot == s.slot && s.now <= next.now
    requires forall t :: IsCreated(next, t) ==> IsCreated(s, t) && next.runs[t] == s.runs[t]
    ensures Abandoned(next, i)
  {
  }

  lemma StepKeepsAbandoned(cfg: Config, s: State, a: Action, i: nat)
    requires Abandoned(s, i)
    ensures Abandoned(Step(cfg, s, a), i)
  {
    match a
    case Begin(token, delivered) => if At(s, token, Ready) { BeginKeepsAbandoned(cfg, s, token, delivered, i); }
    case Insert(token, lead) => if At(s, token, Creating) { InsertKeepsAbandoned(s, token, lead, i); }
    case InsertUnseen(token, lead) => if At(s, token, Creating) { UnseenKeepsAbandoned(s, token, lead, i); }
    case Complete(token, executed) => if IsCreated(s, token) { CompleteKeepsAbandoned(cfg, s, token, executed, i); }
    case Abort(token, executed) => if At(s, token, Aborting) { AbortKeepsAbandoned(s, token, executed, i); }
    case _ => QuietKeepsAbandoned(s, Step(cfg, s, a), i);
  }

  lemma {:induction false} ExecKeepsAbandoned(cfg: Config, s: State, actions: seq<Action>, i: nat)
    requires Abandoned(s, i)
    ensures Abandoned(Exec(cfg, s, actions), i)
    decreases |actions|
  {
    if actions != [] {
      StepKeepsAbandoned(cfg, s, actions[0], i);
      ExecKeepsAbandoned(cfg, Step(cfg, s, actions[0]), actions[1..], i);
    }
  }

  /** A lead inserted late or unseen, a lock that lapses before its Complete, or a Complete that is lost. */
  lemma UntimelyStepAbandons(cfg: Config, s: State, a: Action) returns (i: nat)
    requires SpansMatchSlot(s) && !TimelyStep(s, a)
    ensures Abandoned(Step(cfg, s, a), i)
  {
    var next := Step(cfg, s, a);
    match a
    case Insert(token, _) =>
      i := |s.spans|;
      assert forall t :: IsCreated(next, t) ==> t == token || IsCreated(s, t);
    case InsertUnseen(_, _) =>
      i := |s.spans|;
      assert forall t :: IsCreated(next, t) ==> IsCreated(s, t);
    case Tick(elapsed) =>
      var token :| IsCreated(s, token) && !Holds(s.slot, s.now + elapsed, token);
      i := s.runs[token].pc.span;
      assert forall t :: IsCreated(next, t) ==> IsCreated(s, t) && Holds(s.slot, s.now, t);
    case Complete(token, _) =>
      i := s.runs[token].pc.span;
      assert forall t :: IsCreated(next, t) ==> IsCreated(s, t) && t != token;
      assert forall t :: IsCreated(s, t) ==> Holds(s.slot, s.now, t);
  }

  lemma {:induction false} UntimelyRunAbandons(cfg: Config, s: State, actions: seq<Action>) returns (i: nat)
    requires cfg.Valid() && TimelyInv(cfg, s) && !Timely(cfg, s, actions)
    ensures Abandoned(Exec(cfg, s, actions), i)
    decreases |actions|
  {
    var next := Step(cfg, s, actions[0]);
    if TimelyStep(s, actions[0]) {
      StepKeepsInv(cfg, s, actions[0]);
      TimelyStepKeepsSpans(cfg, s, actions[0]);
      TimelyStepKeepsReplies(cfg, s, actions[0]);
      i := UntimelyRunAbandons(cfg, next, actions[1..]);
    } else {
      i := UntimelyStepAbandons(cfg, s, actions[0]);
      ExecKeepsAbandoned(cfg, next, actions[1..], i);
    }
  }

  // ---------------------------------------------------------------------------------------------
  // The exact condition
  // ---------------------------------------------------------------------------------------------

  /** A request that comes after a while, alone, and inserts its lead when it is granted the lock. */
  function Newcomer(wait: nat, token: string, hash: string, lead: string): seq<Action> {
    [Tick(wait)] + ([Arrive(token, hash), Begin(token, true)] + [Insert(token, lead)])
  }

  /** No lead is in the table whose response is still to be stored by its run. */
  ghost predicate NothingPending(s: State) {
    forall t :: !IsCreated(s, t)
  }

  function ExpiryOf(entry: Option<Entry<string>>): nat {
    if entry.Some? then entry.value.expiresAt else 0
  }

  /** By then all three keys have lapsed. */
  function AllLapsed(slot: Slot): nat {
    ExpiryOf(slot.binding) + ExpiryOf(slot.response) + ExpiryOf(slot.lock)
  }

  lemma NewcomerInserts(cfg: Config, s: State, token: string, hash: string, lead: string)
    requires token !in s.runs
    ensures Exec(cfg, s, Newcomer(AllLapsed(s.slot), token, hash, lead)).spans
            == s.spans + [Span(lead, s.now + AllLapsed(s.slot), None)]
  {
    var wait := AllLapsed(s.slot);
    var later := Follow(cfg, s, Tick(wait), [Arrive(token, hash), Begin(token, true)] + [Insert(token, lead)]);
    GrantThen(cfg, later, token, hash, [Insert(token, lead)]);
    var end := Follow(cfg, Granted(cfg, later, token, hash), Insert(token, lead), []);
    assert [Insert(token, lead)] + [] == [Insert(token, lead)];
  }

  /** A lead whose span is open gets a second one beside it, by a newcomer that waits until nothing is left in Redis. */
  lemma OpenSpanIsDoubled(cfg: Config, s: State, i: nat, token: string, hash: string, lead: string)
    requires i < |s.spans| && s.spans[i].until.None? && token !in s.runs
    ensures !OneLeadPerSpan(Exec(cfg, s, Newcomer(AllLapsed(s.slot), token, hash, lead)).spans)
  {
    NewcomerInserts(cfg, s, token, hash, lead);
    OpenSpanIsAlone(s.spans + [Span(lead, s.now + AllLapsed(s.slot), None)], i, |s.spans|);
  }

  /** A timely run with nothing pending stays timely when a newcomer joins. */
  lemma NewcomerIsTimely(cfg: Config, s: State, wait: nat, token: string, hash: string, lead: string)
    requires cfg.Valid() && NothingPending(s) && token !in s.runs
    ensures Timely(cfg, s, Newcomer(wait, token, hash, lead))
  {
    var later := Step(cfg, s, Tick(wait));
    var arrived := Step(cfg, later, Arrive(token, hash));
    var begun := Step(cfg, arrived, Begin(token, true));
    var run := Newcomer(wait, token, hash, lead);
    assert run == [Tick(wait), Arrive(token, hash), Begin(token, true), Insert(token, lead)];
    assert run[1..] == [Arrive(token, hash), Begin(token, true), Insert(token, lead)];
    assert run[1..][1..] == [Begin(token, true), Insert(token, lead)];
    assert run[1..][1..][1..] == [Insert(token, lead)];
    assert run[1..][1..][1..][1..] == [];
    assert Timely(cfg, begun, run[1..][1..][1..]);
  }

  lemma {:induction false} TimelySplits(cfg: Config, s: State, first: seq<Action>, rest: seq<Action>)
    ensures Timely(cfg, s, first + rest) <==> Timely(cfg, s, first) && Timely(cfg, Exec(cfg, s, first), rest)
    decreases |first|
  {
    if first == [] {
      assert first + rest == rest;
    } else {
      assert (first + rest)[1..] == first[1..] + rest;
      TimelySplits(cfg, Step(cfg, s, first[0]), first[1..], rest);
    }
  }

  lemma TimelyAdmitsNewcomer(cfg: Config, actions: seq<Action>, wait: nat, token: string, hash: string, lead: string)
    requires cfg.Valid() && Timely(cfg, START, actions)
    requires NothingPending(Exec(cfg, START, actions)) && token !in Exec(cfg, START, actions).runs
    ensures OneLeadPerSpan(Exec(cfg, START, actions + Newcomer(wait, token, hash, lead)).spans)
  {
    NewcomerIsTimely(cfg, Exec(cfg, START, actions), wait, token, hash, lead);
    TimelySplits(cfg, START, actions, Newcomer(wait, token, hash, lead));
    OneLeadPerKey(cfg, actions + Newcomer(wait, token, hash, lead));
  }

  /** A pending lead's own span is open, and so is the one that an untimely step leaves behind. */
  lemma OpenSpanIsThere(cfg: Config, actions: seq<Action>) returns (i: nat)
    requires cfg.Valid() && !(Timely(cfg, START, actions) && NothingPending(Exec(cfg, START, actions)))
    ensures var spans := Exec(cfg, START, actions).spans; i < |spans| && spans[i].until.None?
  {
    var s := Exec(cfg, START, actions);
    if Timely(cfg, START, actions) {
      TimelyRunKeepsInv(cfg, START, actions);
      var t :| IsCreated(s, t);
      i := s.runs[t].pc.span;
    } else {
      i := UntimelyRunAbandons(cfg, START, actions);
    }
  }

  /**
   * One lead per key, exactly: after a run, no newcomer however long it waits can add a second lead to a
   * span if and only if the run was timely and every lead it inserted has its response stored.
   */
  lemma OneLeadPerKeyIff(cfg: Config, actions: seq<Action>, token: string, hash: string, lead: string)
    requires cfg.Valid() && token !in Exec(cfg, START, actions).runs
    ensures Timely(cfg, START, actions) && NothingPending(Exec(cfg, START, actions))
      <==> forall wait :: OneLeadPerSpan(Exec(cfg, START, actions + Newcomer(wait, token, hash, lead)).spans)
  {
    var s := Exec(cfg, START, actions);
    if Timely(cfg, START, actions) && NothingPending(s) {
      forall wait
        ensures OneLeadPerSpan(Exec(cfg, START, actions + Newcomer(wait, token, hash, lead)).spans)
      {
        TimelyAdmitsNewcomer(cfg, actions, wait, token, hash, lead);
      }
    } else {
      var i := OpenSpanIsThere(cfg, actions);
      OpenSpanIsDoubled(cfg, s, i, token, hash, lead);
      ExecSplits(cfg, START, actions, Newcomer(AllLapsed(s.slot), token, hash, lead));
    }
  }

  // ---------------------------------------------------------------------------------------------
  // Runs that end in time are timely
  // ---------------------------------------------------------------------------------------------

  /** The run's Complete or Abort takes effect: its script finds the lock still held. */
  predicate TakesEffect(s: State, a: Action, token: string) {
    match a
    case Complete(t, executed) => t == token && executed && IsCreated(s, token) && Holds(s.slot, s.now, token)
    case Abort(t, executed) => t == token && executed && At(s, token, Aborting) && Holds(s.slot, s.now, token)
    case _ => false
  }

  predicate EndsInTime(cfg: Config, s: State, actions: seq<Action>, token: string)
    decreases |actions|
  {
    actions != []
    && (TakesEffect(s, actions[0], token) || EndsInTime(cfg, Step(cfg, s, actions[0]), actions[1..], token))
  }

  /** The answer that lets the run go on reaches it. */
  predicate IsGrant(s: State, a: Action) {
    && a.Begin? && a.delivered && At(s, a.token, Ready)
    && BeginVerdict(s.slot, s.now, s.runs[a.token].requestHash) == Acquired
  }

  /** Every run that got Proceed completes or aborts before its lock lapses. */
  predicate GrantsEndInTime(cfg: Config, s: State, actions: seq<Action>)
    decreases |actions|
  {
    actions == []
    || (var next := Step(cfg, s, actions[0]);
        && (IsGrant(s, actions[0]) ==> EndsInTime(cfg, next, actions[1..], actions[0].token))
        && GrantsEndInTime(cfg, next, actions[1..]))
  }

  /** A run between its grant and its end. */
  predicate Active(s: State, token: string) {
    token in s.runs && (s.runs[token].pc.Creating? || s.runs[token].pc.Created? || s.runs[token].pc.Aborting?)
  }

  predicate Answered(s: State, token: string) {
    token in s.runs && (s.runs[token].pc.Replied? || s.runs[token].pc.Refused?)
  }

  lemma AnsweredStays(cfg: Config, s: State, a: Action, token: string)
    requires Answered(s, token)
    ensures Answered(Step(cfg, s, a), token) && !TakesEffect(s, a, token)
  {
  }

  lemma {:induction false} AnsweredDoesNotEnd(cfg: Config, s: State, actions: seq<Action>, token: string)
    requires Answered(s, token)
    ensures !EndsInTime(cfg, s, actions, token)
    decreases |actions|
  {
    if actions != [] {
      AnsweredStays(cfg, s, actions[0], token);
      AnsweredDoesNotEnd(cfg, Step(cfg, s, actions[0]), actions[1..], token);
    }
  }

  /** A step leaves a run active, or ends it. */
  lemma ActiveOrAnswered(cfg: Config, s: State, a: Action, token: string)
    requires Active(s, token)
    ensures Active(Step(cfg, s, a), token) || Answered(Step(cfg, s, a), token)
    ensures TakesEffect(s, a, token) ==> Answered(Step(cfg, s, a), token)
  {
  }

  /** So a run that will end in time holds the lock until then. */
  lemma {:induction false} EndingRunHolds(cfg: Config, s: State, actions: seq<Action>, token: string)
    requires Active(s, token) && EndsInTime(cfg, s, actions, token)
    ensures Holds(s.slot, s.now, token)
    decreases |actions|
  {
    var next := Step(cfg, s, actions[0]);
    if !TakesEffect(s, actions[0], token) {
      ActiveOrAnswered(cfg, s, actions[0], token);
      if Answered(next, token) {
        AnsweredDoesNotEnd(cfg, next, actions[1..], token);
      } else {
        EndingRunHolds(cfg, next, actions[1..], token);
        HeldBefore(cfg, s, actions[0], token);
      }
    }
  }

  ghost predicate ActiveRunsEnd(cfg: Config, s: State, actions: seq<Action>) {
    forall t :: Active(s, t) ==> EndsInTime(cfg, s, actions, t)
  }

  lemma NewlyActive(cfg: Config, s: State, a: Action, token: string)
    requires Active(Step(cfg, s, a), token) && !Active(s, token)
    ensures IsGrant(s, a) && a.token == token
  {
  }

  lemma ActiveRunsStillEnd(cfg: Config, s: State, actions: seq<Action>)
    requires actions != [] && ActiveRunsEnd(cfg, s, actions) && GrantsEndInTime(cfg, s, actions)
    ensures ActiveRunsEnd(cfg, Step(cfg, s, actions[0]), actions[1..])
  {
    var next := Step(cfg, s, actions[0]);
    forall t | Active(next, t)
      ensures EndsInTime(cfg, next, actions[1..], t)
    {
      if Active(s, t) {
        ActiveOrAnswered(cfg, s, actions[0], t);
      } else {
        NewlyActive(cfg, s, actions[0], t);
      }
    }
  }

  /** No handler is told that an INSERT failed which did not. */
  predicate InsertsAreSeen(cfg: Config, s: State, actions: seq<Action>)
    decreases |actions|
  {
    actions == []
    || ((actions[0].InsertUnseen? ==> !At(s, actions[0].token, Creating))
        && InsertsAreSeen(cfg, Step(cfg, s, actions[0]), actions[1..]))
  }

  /** While every active run is going to end in time, the next step is timely. */
  lemma EndingRunsStepTimely(cfg: Config, s: State, actions: seq<Action>)
    requires actions != [] && ActiveRunsEnd(cfg, s, actions) && InsertsAreSeen(cfg, s, actions)
    ensures TimelyStep(s, actions[0])
  {
    match actions[0]
    case Insert(token, _) =>
      if At(s, token, Creating) {
        EndingRunHolds(cfg, s, actions, token);
      }
    case Tick(elapsed) =>
      forall t | IsCreated(s, t)
        ensures Holds(s.slot, s.now + elapsed, t)
      {
        assert Active(s, t);
        EndingRunHolds(cfg, Step(cfg, s, actions[0]), actions[1..], t);
      }
    case Complete(token, executed) =>
      if IsCreated(s, token) && !executed {
        assert Active(s, token) && Answered(Step(cfg, s, actions[0]), token);
        AnsweredDoesNotEnd(cfg, Step(cfg, s, actions[0]), actions[1..], token);
      }
    case _ =>
  }

  lemma {:induction false} EndingRunsAreTimely(cfg: Config, s: State, actions: seq<Action>)
    requires ActiveRunsEnd(cfg, s, actions) && GrantsEndInTime(cfg, s, actions) && InsertsAreSeen(cfg, s, actions)
    ensures Timely(cfg, s, actions)
    decreases |actions|
  {
    if actions != [] {
      EndingRunsStepTimely(cfg, s, actions);
      ActiveRunsStillEnd(cfg, s, actions);
      EndingRunsAreTimely(cfg, Step(cfg, s, actions[0]), actions[1..]);
    }
  }

  lemma {:induction false} TimelyInsertsAreSeen(cfg: Config, s: State, actions: seq<Action>)
    requires Timely(cfg, s, actions)
    ensures InsertsAreSeen(cfg, s, actions)
    decreases |actions|
  {
    if actions != [] {
      TimelyInsertsAreSeen(cfg, Step(cfg, s, actions[0]), actions[1..]);
    }
  }

  /**
   * If every run that got Proceed completes or aborts before its lock lapses, the run is timely, and so
   * there is one lead per key, if and only if no handler took a lead that was inserted for a failure.
   */
  lemma GrantsInTimeGiveOneLead(cfg: Config, actions: seq<Action>)
    requires cfg.Valid() && GrantsEndInTime(cfg, START, actions)
    ensures Timely(cfg, START, actions) <==> InsertsAreSeen(cfg, START, actions)
    ensures InsertsAreSeen(cfg, START, actions) ==> OneLeadPerSpan(Exec(cfg, START, actions).spans)
  {
    if InsertsAreSeen(cfg, START, actions) {
      EndingRunsAreTimely(cfg, START, actions);
      OneLeadPerKey(cfg, actions);
    }
    if Timely(cfg, START, actions) {
      TimelyInsertsAreSeen(cfg, START, actions);
    }
  }
}

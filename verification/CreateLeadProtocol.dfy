/**
 * Concurrent runs of the create-lead handler (internal/lead/controller/http.go) on one idempotency key.
 *
 * Every Lua script, every Redis read and every INSERT is one atomic step. A run of the system is any
 * sequence of actions: they pick which handler moves, and how far the clock advances in between. An
 * action that is not enabled leaves the state alone, so quantifying over all sequences of actions
 * quantifies over all interleavings of any number of handlers.
 */
module CreateLeadProtocol {
  import opened Options
  import opened Redis
  import opened Idempotency

  /** Where a handler stands; its token names it. */
  datatype Pc =
    | Ready
    | Reading                     // the begin script reported a stored response
    | Creating                    // the begin script granted the lock
    | Created(lead: string, span: nat)   // the lead is in the table, its response is not stored yet
    | Aborting                    // the service refused the lead
    | Replied(lead: string)       // 201
    | Refused                     // any other status

  datatype Run = Run(requestHash: string, pc: Pc)

  /** A lead inserted for the key: when, and until when the response that replays it is stored. */
  datatype Span = Span(lead: string, createdAt: nat, until: Option<nat>)

  /** A 201 answer and the moment the handler read or stored the response it carries. */
  datatype Reply = Reply(lead: string, at: nat)

  datatype State = State(
    now: nat,
    slot: Slot,
    runs: map<string, Run>,
    spans: seq<Span>,
    replies: seq<Reply>,
    author: string,       // token of the run whose response was stored last
    proceeds: nat,        // begin scripts that granted the lock
    aborts: nat,          // abort scripts that deleted a lock
    completes: nat)       // complete scripts that stored a response

  datatype Action =
    | Tick(elapsed: nat)
    | Arrive(token: string, requestHash: string)
    | Begin(token: string, delivered: bool)       // not delivered: the script ran, its answer was lost
    | Read(token: string)
    | Insert(token: string, lead: string)
    | InsertUnseen(token: string, lead: string)   // the row is there, but the handler is told that it failed
    | Reject(token: string)
    | Complete(token: string, executed: bool)     // not executed: Redis was unreachable
    | Abort(token: string, executed: bool)

  const START := State(0, EMPTY_SLOT, map[], [], [], "", 0, 0, 0)

  predicate At(s: State, token: string, pc: Pc) {
    token in s.runs && s.runs[token].pc == pc
  }

  function Move(s: State, token: string, pc: Pc): State
    requires token in s.runs
  {
    s.(runs := s.runs[token := s.runs[token].(pc := pc)])
  }

  function StepBegin(cfg: Config, s: State, token: string, delivered: bool): State
    requires At(s, token, Ready)
  {
    var hash := s.runs[token].requestHash;
    var verdict := BeginVerdict(s.slot, s.now, hash);
    var pc := if !delivered then Refused else match verdict
      case Acquired => Creating
      case Stored => Reading
      case _ => Refused;
    Move(s, token, pc).(
      slot := BeginScript(cfg, s.slot, s.now, hash, token),
      proceeds := s.proceeds + if verdict == Acquired then 1 else 0)
  }

  function StepRead(s: State, token: string): State
    requires At(s, token, Reading)
  {
    match Live(s.slot.response, s.now)
    case Some(lead) => Move(s, token, Replied(lead)).(replies := s.replies + [Reply(lead, s.now)])
    case None => Move(s, token, Refused)
  }

  function StepInsert(s: State, token: string, lead: string): State
    requires At(s, token, Creating)
  {
    Move(s, token, Created(lead, |s.spans|)).(spans := s.spans + [Span(lead, s.now, None)])
  }

  /** The handler takes the lead for refused and is about to abort. */
  function StepInsertUnseen(s: State, token: string, lead: string): State
    requires At(s, token, Creating)
  {
    Move(s, token, Aborting).(spans := s.spans + [Span(lead, s.now, None)])
  }

  predicate IsCreated(s: State, token: string) {
    token in s.runs && s.runs[token].pc.Created?
  }

  function StepComplete(cfg: Config, s: State, token: string, executed: bool): State
    requires IsCreated(s, token)
  {
    var Created(lead, span) := s.runs[token].pc;
    var replied := Move(s, token, Replied(lead)).(replies := s.replies + [Reply(lead, s.now)]);
    if executed && Holds(s.slot, s.now, token) then
      replied.(
        slot := CompleteScript(cfg, s.slot, s.now, token, lead),
        spans := if span < |s.spans|
          then s.spans[span := s.spans[span].(until := Some(s.now + cfg.resultTTL))]
          else s.spans,
        author := token,
        completes := s.completes + 1)
    else
      replied
  }

  function StepAbort(s: State, token: string, executed: bool): State
    requires At(s, token, Aborting)
  {
    var refused := Move(s, token, Refused);
    if executed && Holds(s.slot, s.now, token) then
      refused.(slot := AbortScript(s.slot, s.now, token), aborts := s.aborts + 1)
    else
      refused
  }

  function Step(cfg: Config, s: State, a: Action): State {
    match a
    case Tick(elapsed) => s.(now := s.now + elapsed)
    case Arrive(token, hash) => if token in s.runs then s else s.(runs := s.runs[token := Run(hash, Ready)])
    case Begin(token, delivered) => if At(s, token, Ready) then StepBegin(cfg, s, token, delivered) else s
    case Read(token) => if At(s, token, Reading) then StepRead(s, token) else s
    case Insert(token, lead) => if At(s, token, Creating) then StepInsert(s, token, lead) else s
    case InsertUnseen(token, lead) => if At(s, token, Creating) then StepInsertUnseen(s, token, lead) else s
    case Reject(token) => if At(s, token, Creating) then Move(s, token, Aborting) else s
    case Complete(token, executed) =>
      if IsCreated(s, token) then StepComplete(cfg, s, token, executed) else s
    case Abort(token, executed) => if At(s, token, Aborting) then StepAbort(s, token, executed) else s
  }

  function Exec(cfg: Config, s: State, actions: seq<Action>): State
    decreases |actions|
  {
    if actions == [] then s else Exec(cfg, Step(cfg, s, actions[0]), actions[1..])
  }

  // ---------------------------------------------------------------------------------------------
  // What every reachable state keeps, however slow or unlucky the handlers are
  // ---------------------------------------------------------------------------------------------

  /** The lock and the binding were written together, by a run whose hash the binding carries. */
  ghost predicate LockIsBound(cfg: Config, s: State) {
    s.slot.lock.Some? ==>
      var lock := s.slot.lock.value;
      && lock.value in s.runs
      && lock.expiresAt <= s.now + cfg.lockTTL
      && s.slot.binding.Some?
      && s.slot.binding.value.value == s.runs[lock.value].requestHash
      && s.slot.binding.value.expiresAt + cfg.lockTTL == lock.expiresAt + cfg.resultTTL
  }

  /** A live response was stored by `author`, for the bound hash, and outlives its binding by less than a lock. */
  ghost predicate ResponseIsBound(cfg: Config, s: State) {
    Live(s.slot.response, s.now).Some? ==>
      var response := s.slot.response.value;
      && s.author in s.runs
      && s.runs[s.author].pc == Replied(response.value)
      && response.expiresAt <= s.now + cfg.resultTTL
      && s.slot.binding.Some?
      && s.slot.binding.value.value == s.runs[s.author].requestHash
      && s.slot.binding.value.expiresAt <= response.expiresAt < s.slot.binding.value.expiresAt + cfg.lockTTL
  }

  ghost predicate LockExcludesResponse(s: State) {
    Live(s.slot.lock, s.now).Some? ==> Live(s.slot.response, s.now).None?
  }

  ghost predicate Inv(cfg: Config, s: State) {
    LockIsBound(cfg, s) && ResponseIsBound(cfg, s) && LockExcludesResponse(s)
  }

  lemma BeginKeepsInv(cfg: Config, s: State, token: string, delivered: bool)
    requires cfg.Valid() && Inv(cfg, s) && At(s, token, Ready)
    ensures Inv(cfg, StepBegin(cfg, s, token, delivered))
  {
  }

  lemma CompleteKeepsInv(cfg: Config, s: State, token: string, executed: bool)
    requires cfg.Valid() && Inv(cfg, s) && IsCreated(s, token)
    ensures Inv(cfg, StepComplete(cfg, s, token, executed))
  {
  }

  lemma AbortKeepsInv(cfg: Config, s: State, token: string, executed: bool)
    requires Inv(cfg, s) && At(s, token, Aborting)
    ensures Inv(cfg, StepAbort(s, token, executed))
  {
  }

  /** Steps that leave the three keys alone and no run but that of `token`, which has not answered yet. */
  lemma QuietMoveKeepsInv(cfg: Config, s: State, token: string, next: State)
    requires Inv(cfg, s) && token in s.runs && !s.runs[token].pc.Replied?
    requires next.slot == s.slot && next.now == s.now && next.author == s.author
    requires exists pc :: next.runs == s.runs[token := s.runs[token].(pc := pc)]
    ensures Inv(cfg, next)
  {
  }

  lemma StepKeepsInv(cfg: Config, s: State, a: Action)
    requires cfg.Valid() && Inv(cfg, s)
    ensures Inv(cfg, Step(cfg, s, a))
  {
    match a
    case Tick(_) =>
    case Arrive(_, _) =>
    case Begin(token, delivered) => if At(s, token, Ready) { BeginKeepsInv(cfg, s, token, delivered); }
    case Read(token) => if At(s, token, Reading) { QuietMoveKeepsInv(cfg, s, token, Step(cfg, s, a)); }
    case Insert(token, _) => if At(s, token, Creating) { QuietMoveKeepsInv(cfg, s, token, Step(cfg, s, a)); }
    case InsertUnseen(token, _) => if At(s, token, Creating) { QuietMoveKeepsInv(cfg, s, token, Step(cfg, s, a)); }
    case Reject(token) => if At(s, token, Creating) { QuietMoveKeepsInv(cfg, s, token, Step(cfg, s, a)); }
    case Complete(token, executed) => if IsCreated(s, token) { CompleteKeepsInv(cfg, s, token, executed); }
    case Abort(token, executed) => if At(s, token, Aborting) { AbortKeepsInv(cfg, s, token, executed); }
  }

  lemma {:induction false} ExecKeepsInv(cfg: Config, s: State, actions: seq<Action>)
    requires cfg.Valid() && Inv(cfg, s)
    ensures Inv(cfg, Exec(cfg, s, actions))
    decreases |actions|
  {
    if actions != [] {
      StepKeepsInv(cfg, s, actions[0]);
      ExecKeepsInv(cfg, Step(cfg, s, actions[0]), actions[1..]);
    }
  }

  /** The expiry invariant of every reachable state. */
  lemma ReachableSlots(cfg: Config, actions: seq<Action>)
    requires cfg.Valid()
    ensures var s := Exec(cfg, START, actions);
      var lock, response := Live(s.slot.lock, s.now), Live(s.slot.response, s.now);
      var binding := Live(s.slot.binding, s.now);
      && !(lock.Some? && response.Some?)
      && (lock.Some? ==> lock.value in s.runs && binding == Some(s.runs[lock.value].requestHash))
      && (response.Some? ==>
            && s.slot.binding.Some?
            && s.slot.binding.value.expiresAt <= s.slot.response.value.expiresAt
            && s.slot.response.value.expiresAt < s.slot.binding.value.expiresAt + cfg.lockTTL)
  {
    ExecKeepsInv(cfg, START, actions);
  }

  /** Until it lapses, nothing overwrites or extends a stored response. */
  lemma {:induction false} LiveResponseIsFinal(cfg: Config, s: State, actions: seq<Action>)
    requires cfg.Valid() && Inv(cfg, s)
    requires s.slot.response.Some?
    requires Exec(cfg, s, actions).now < s.slot.response.value.expiresAt
    ensures Exec(cfg, s, actions).slot.response == s.slot.response
    decreases |actions|
  {
    if actions != [] {
      var next := Step(cfg, s, actions[0]);
      ClockIsMonotone(cfg, next, actions[1..]);
      StepKeepsInv(cfg, s, actions[0]);
      LiveResponseIsFinal(cfg, next, actions[1..]);
    }
  }

  lemma {:induction false} ClockIsMonotone(cfg: Config, s: State, actions: seq<Action>)
    ensures s.now <= Exec(cfg, s, actions).now
    decreases |actions|
  {
    if actions != [] {
      ClockIsMonotone(cfg, Step(cfg, s, actions[0]), actions[1..]);
    }
  }

  /** The lock is given to runs that begin, and nothing prolongs it. */
  lemma HeldBefore(cfg: Config, s: State, a: Action, token: string)
    requires token in s.runs && !s.runs[token].pc.Ready? && Holds(Step(cfg, s, a).slot, Step(cfg, s, a).now, token)
    ensures Holds(s.slot, s.now, token)
  {
  }

  /** A run begins once. */
  lemma BegunStays(cfg: Config, s: State, a: Action, token: string)
    requires token in s.runs && !s.runs[token].pc.Ready?
    ensures token in Step(cfg, s, a).runs && !Step(cfg, s, a).runs[token].pc.Ready?
  {
  }

  /**
   * A run that has begun and does not hold the lock, because it lapsed or went to another run, never gets it
   * back: whatever happens and however late it finishes, its Complete and its Abort change no key.
   */
  lemma {:induction false} LapsedRunIsHarmless(cfg: Config, s: State, actions: seq<Action>, token: string,
      executed: bool)
    requires token in s.runs && !s.runs[token].pc.Ready? && !Holds(s.slot, s.now, token)
    ensures var end := Exec(cfg, s, actions);
      && Step(cfg, end, Complete(token, executed)).slot == end.slot
      && Step(cfg, end, Abort(token, executed)).slot == end.slot
    decreases |actions|
  {
    if actions != [] {
      var next := Step(cfg, s, actions[0]);
      BegunStays(cfg, s, actions[0], token);
      if Holds(next.slot, next.now, token) {
        HeldBefore(cfg, s, actions[0], token);
      } else {
        LapsedRunIsHarmless(cfg, next, actions[1..], token, executed);
      }
    }
  }

  /**
   * When a request is offered the response of a request whose body was different: exactly when the binding
   * has lapsed and the response has not. Otherwise the begin script reports the mismatch. What the request is
   * answered with is up to the read that follows; CreateLeadReplay has that.
   */
  lemma OfferAcrossBodiesIff(cfg: Config, actions: seq<Action>, token: string)
    requires cfg.Valid()
    requires At(Exec(cfg, START, actions), token, Ready)
    ensures var s := Exec(cfg, START, actions);
      && (Live(s.slot.response, s.now).Some? ==> s.author in s.runs)
      && ((BeginVerdict(s.slot, s.now, s.runs[token].requestHash) == Stored
           && s.runs[token].requestHash != s.runs[s.author].requestHash)
          <==> (&& Live(s.slot.response, s.now).Some?
                && Live(s.slot.binding, s.now).None?
                && s.runs[token].requestHash != s.runs[s.author].requestHash))
  {
    ExecKeepsInv(cfg, START, actions);
  }

  /** One step of a concrete run, to follow it action by action. */
  lemma Follow(cfg: Config, s: State, a: Action, rest: seq<Action>) returns (next: State)
    ensures next == Step(cfg, s, a)
    ensures Exec(cfg, s, [a] + rest) == Exec(cfg, next, rest)
    ensures Exec(cfg, next, []) == next
  {
    next := Step(cfg, s, a);
    assert ([a] + rest)[1..] == rest;
  }

  lemma {:induction false} ExecSplits(cfg: Config, s: State, first: seq<Action>, rest: seq<Action>)
    ensures Exec(cfg, s, first + rest) == Exec(cfg, Exec(cfg, s, first), rest)
    decreases |first|
  {
    if first == [] {
      assert first + rest == rest;
    } else {
      assert (first + rest)[1..] == first[1..] + rest;
      ExecSplits(cfg, Step(cfg, s, first[0]), first[1..], rest);
    }
  }

  /** A new request that finds the key free is granted the lock. */
  function Granted(cfg: Config, s: State, token: string, hash: string): State {
    s.(runs := s.runs[token := Run(hash, Creating)],
       slot := s.slot.(
         lock := Some(Entry(token, s.now + cfg.lockTTL)),
         binding := Some(Entry(hash, s.now + cfg.resultTTL))),
       proceeds := s.proceeds + 1)
  }

  lemma ArriveAndBegin(cfg: Config, s: State, token: string, hash: string)
    requires token !in s.runs && BeginVerdict(s.slot, s.now, hash) == Acquired
    ensures Exec(cfg, s, [Arrive(token, hash), Begin(token, true)]) == Granted(cfg, s, token, hash)
  {
    var s1 := Follow(cfg, s, Arrive(token, hash), [Begin(token, true)]);
    var s2 := Follow(cfg, s1, Begin(token, true), []);
    assert s2.runs == Granted(cfg, s, token, hash).runs;
    assert [Arrive(token, hash)] + [Begin(token, true)] == [Arrive(token, hash), Begin(token, true)];
  }

  lemma GrantThen(cfg: Config, s: State, token: string, hash: string, rest: seq<Action>)
    requires token !in s.runs && BeginVerdict(s.slot, s.now, hash) == Acquired
    ensures Exec(cfg, s, [Arrive(token, hash), Begin(token, true)] + rest)
      == Exec(cfg, Granted(cfg, s, token, hash), rest)
  {
    ArriveAndBegin(cfg, s, token, hash);
    ExecSplits(cfg, s, [Arrive(token, hash), Begin(token, true)], rest);
  }

  /** Whoever comes while the binding has lapsed and the response has not is answered with it, whatever the body. */
  lemma LapsedBindingReplays(cfg: Config, s: State, token: string, hash: string)
    requires token !in s.runs && Live(s.slot.response, s.now).Some? && Live(s.slot.binding, s.now).None?
    ensures var end := Exec(cfg, s, [Arrive(token, hash), Begin(token, true), Read(token)]);
      At(end, token, Replied(s.slot.response.value.value))
  {
    var s1 := Follow(cfg, s, Arrive(token, hash), [Begin(token, true), Read(token)]);
    var s2 := Follow(cfg, s1, Begin(token, true), [Read(token)]);
    var s3 := Follow(cfg, s2, Read(token), []);
    assert [Arrive(token, hash)] + [Begin(token, true), Read(token)]
      == [Arrive(token, hash), Begin(token, true), Read(token)];
    assert [Begin(token, true)] + [Read(token)] == [Begin(token, true), Read(token)];
  }

  /** That window is reached by completing `delay` after the lock was granted and waiting for the binding to lapse. */
  lemma LapsedBindingIsReachable(cfg: Config, delay: nat, token: string, hash: string, lead: string)
    requires cfg.Valid() && 0 < delay < cfg.lockTTL
    ensures var s := Exec(cfg, START, [Arrive(token, hash), Begin(token, true)]
        + [Insert(token, lead), Tick(delay), Complete(token, true), Tick(cfg.resultTTL - delay)]);
      Live(s.slot.response, s.now) == Some(lead) && Live(s.slot.binding, s.now).None? && s.runs.Keys == {token}
  {
    var rest := [Insert(token, lead), Tick(delay), Complete(token, true), Tick(cfg.resultTTL - delay)];
    GrantThen(cfg, START, token, hash, rest);
    LateCompletion(cfg, delay, token, hash, lead);
  }

  lemma LateCompletion(cfg: Config, delay: nat, token: string, hash: string, lead: string)
    requires cfg.Valid() && 0 < delay < cfg.lockTTL
    ensures var s := Exec(cfg, Granted(cfg, START, token, hash),
        [Insert(token, lead), Tick(delay), Complete(token, true), Tick(cfg.resultTTL - delay)]);
      Live(s.slot.response, s.now) == Some(lead) && Live(s.slot.binding, s.now).None? && s.runs.Keys == {token}
  {
    var third := [Complete(token, true), Tick(cfg.resultTTL - delay)];
    var s1 := Follow(cfg, Granted(cfg, START, token, hash), Insert(token, lead), [Tick(delay)] + third);
    var s2 := Follow(cfg, s1, Tick(delay), third);
    var s3 := Follow(cfg, s2, Complete(token, true), [Tick(cfg.resultTTL - delay)]);
    var s4 := Follow(cfg, s3, Tick(cfg.resultTTL - delay), []);
    assert [Complete(token, true)] + [Tick(cfg.resultTTL - delay)] == third;
    assert [Insert(token, lead)] + ([Tick(delay)] + third)
      == [Insert(token, lead), Tick(delay), Complete(token, true), Tick(cfg.resultTTL - delay)];
  }

  // ---------------------------------------------------------------------------------------------
  // One lead per key while its response is stored
  // ---------------------------------------------------------------------------------------------

  /**
   * What the lock needs of the handlers: a run inserts its lead only while it holds the lock, learns that
   * it did, and from then on its Complete takes effect before the lock lapses. Runs that insert nothing may
   * do as they like.
   */
  ghost predicate TimelyStep(s: State, a: Action) {
    match a
    case Insert(token, _) => At(s, token, Creating) ==> Holds(s.slot, s.now, token)
    case InsertUnseen(token, _) => !At(s, token, Creating)
    case Tick(elapsed) => forall token :: IsCreated(s, token) ==> Holds(s.slot, s.now + elapsed, token)
    case Complete(token, executed) => IsCreated(s, token) ==> executed
    case _ => true
  }

  ghost predicate Timely(cfg: Config, s: State, actions: seq<Action>)
    decreases |actions|
  {
    actions == [] || (TimelyStep(s, actions[0]) && Timely(cfg, Step(cfg, s, actions[0]), actions[1..]))
  }

  /** `t` lies between the creation of the lead and the lapse of its response. */
  predicate InSpan(span: Span, t: nat) {
    span.createdAt <= t && (span.until.Some? ==> t < span.until.value)
  }

  /** No lead is inserted for the key before the response of the previous one lapsed. */
  ghost predicate OneLeadPerSpan(spans: seq<Span>) {
    forall i, j :: 0 <= i < j < |spans| ==> spans[i].until.Some? && spans[i].until.value <= spans[j].createdAt
  }

  ghost predicate RepliesAgree(s: State) {
    forall r :: r in s.replies ==>
      && r.at <= s.now
      && exists i :: 0 <= i < |s.spans| && InSpan(s.spans[i], r.at) && s.spans[i].lead == r.lead
  }

  /** The newest span is open only while its creator holds the lock, and closed exactly by the stored response. */
  ghost predicate SpansMatchSlot(s: State) {
    && (forall token :: IsCreated(s, token) ==>
          && Holds(s.slot, s.now, token)
          && s.runs[token].pc.span + 1 == |s.spans|
          && s.spans[s.runs[token].pc.span].lead == s.runs[token].pc.lead
          && s.spans[s.runs[token].pc.span].until.None?)
    && (s.spans != [] ==>
          var last := s.spans[|s.spans| - 1];
          && last.createdAt <= s.now
          && (last.until.None? ==> s.slot.lock.Some? && IsCreated(s, s.slot.lock.value.value))
          && (last.until.Some? && s.now < last.until.value ==>
                s.slot.response == Some(Entry(last.lead, last.until.value))))
    && (Live(s.slot.response, s.now).Some? ==>
          && s.spans != []
          && s.spans[|s.spans| - 1].lead == s.slot.response.value.value
          && s.spans[|s.spans| - 1].until == Some(s.slot.response.value.expiresAt))
  }

  ghost predicate TimelyInv(cfg: Config, s: State) {
    Inv(cfg, s) && SpansMatchSlot(s) && OneLeadPerSpan(s.spans) && RepliesAgree(s)
  }

  lemma TimelyStepKeepsSpans(cfg: Config, s: State, a: Action)
    requires cfg.Valid() && Inv(cfg, s) && SpansMatchSlot(s) && OneLeadPerSpan(s.spans) && TimelyStep(s, a)
    ensures SpansMatchSlot(Step(cfg, s, a)) && OneLeadPerSpan(Step(cfg, s, a).spans)
  {
    match a
    case Tick(elapsed) => TickKeepsSpans(s, elapsed);
    case Arrive(token, hash) =>
      if token !in s.runs { ArrivalKeepsSpans(s, token, hash); }
    case Begin(token, delivered) => if At(s, token, Ready) { BeginKeepsSpans(cfg, s, token, delivered); }
    case Read(token) => if At(s, token, Reading) { QuietMoveKeepsSpans(s, Step(cfg, s, a), token); }
    case Insert(token, lead) => if At(s, token, Creating) { InsertKeepsSpans(cfg, s, token, lead); }
    case InsertUnseen(_, _) =>
    case Reject(token) => if At(s, token, Creating) { QuietMoveKeepsSpans(s, Step(cfg, s, a), token); }
    case Complete(token, executed) => if IsCreated(s, token) { CompleteKeepsSpans(cfg, s, token); }
    case Abort(token, executed) => if At(s, token, Aborting) { AbortKeepsSpans(s, token, executed); }
  }

  lemma TickKeepsSpans(s: State, elapsed: nat)
    requires SpansMatchSlot(s) && TimelyStep(s, Tick(elapsed))
    ensures SpansMatchSlot(s.(now := s.now + elapsed))
  {
    var next := s.(now := s.now + elapsed);
    assert forall t :: IsCreated(next, t) <==> IsCreated(s, t);
  }

  lemma ArrivalKeepsSpans(s: State, token: string, hash: string)
    requires SpansMatchSlot(s) && token !in s.runs
    ensures SpansMatchSlot(s.(runs := s.runs[token := Run(hash, Ready)]))
  {
    var next := s.(runs := s.runs[token := Run(hash, Ready)]);
    assert forall t :: IsCreated(next, t) <==> IsCreated(s, t);
  }

  lemma BeginKeepsSpans(cfg: Config, s: State, token: string, delivered: bool)
    requires cfg.Valid() && SpansMatchSlot(s) && At(s, token, Ready)
    ensures SpansMatchSlot(StepBegin(cfg, s, token, delivered))
  {
    var next := StepBegin(cfg, s, token, delivered);
    assert forall t :: IsCreated(next, t) <==> IsCreated(s, t);
  }

  lemma QuietMoveKeepsSpans(s: State, next: State, token: string)
    requires SpansMatchSlot(s) && token in s.runs && !IsCreated(s, token)
    requires next.runs.Keys == s.runs.Keys && (forall t :: t in s.runs && t != token ==> next.runs[t] == s.runs[t])
    requires !IsCreated(next, token) && next.now == s.now && next.slot == s.slot && next.spans == s.spans
    ensures SpansMatchSlot(next)
  {
    assert forall t :: IsCreated(next, t) <==> IsCreated(s, t);
  }

  lemma InsertKeepsSpans(cfg: Config, s: State, token: string, lead: string)
    requires Inv(cfg, s) && SpansMatchSlot(s) && OneLeadPerSpan(s.spans)
    requires At(s, token, Creating) && Holds(s.slot, s.now, token)
    ensures SpansMatchSlot(StepInsert(s, token, lead)) && OneLeadPerSpan(StepInsert(s, token, lead).spans)
  {
    var next := StepInsert(s, token, lead);
    assert forall t :: IsCreated(next, t) <==> t == token;
    if s.spans != [] {
      var last := s.spans[|s.spans| - 1];
      assert last.until.Some? && last.until.value <= s.now;
    }
  }

  lemma CompleteKeepsSpans(cfg: Config, s: State, token: string)
    requires cfg.Valid() && SpansMatchSlot(s) && OneLeadPerSpan(s.spans) && IsCreated(s, token)
    ensures SpansMatchSlot(StepComplete(cfg, s, token, true)) && OneLeadPerSpan(StepComplete(cfg, s, token, true).spans)
  {
    var next := StepComplete(cfg, s, token, true);
    assert forall t :: IsCreated(s, t) <==> t == token;
    assert forall t :: !IsCreated(next, t);
  }

  lemma AbortKeepsSpans(s: State, token: string, executed: bool)
    requires SpansMatchSlot(s) && At(s, token, Aborting)
    ensures SpansMatchSlot(StepAbort(s, token, executed))
  {
    var next := StepAbort(s, token, executed);
    assert forall t :: IsCreated(next, t) <==> IsCreated(s, t);
  }

  lemma TimelyStepKeepsReplies(cfg: Config, s: State, a: Action)
    requires cfg.Valid() && TimelyInv(cfg, s) && TimelyStep(s, a)
    ensures RepliesAgree(Step(cfg, s, a))
  {
    var next := Step(cfg, s, a);
    forall r | r in next.replies
      ensures r.at <= next.now
      ensures exists i :: 0 <= i < |next.spans| && InSpan(next.spans[i], r.at) && next.spans[i].lead == r.lead
    {
      if r in s.replies {
        var i :| 0 <= i < |s.spans| && InSpan(s.spans[i], r.at) && s.spans[i].lead == r.lead;
        assert InSpan(next.spans[i], r.at) && next.spans[i].lead == r.lead;
      } else {
        var last := |next.spans| - 1;
        assert InSpan(next.spans[last], r.at) && next.spans[last].lead == r.lead;
      }
    }
  }

  lemma {:induction false} TimelyRunKeepsInv(cfg: Config, s: State, actions: seq<Action>)
    requires cfg.Valid() && TimelyInv(cfg, s) && Timely(cfg, s, actions)
    ensures TimelyInv(cfg, Exec(cfg, s, actions))
    decreases |actions|
  {
    if actions != [] {
      StepKeepsInv(cfg, s, actions[0]);
      TimelyStepKeepsSpans(cfg, s, actions[0]);
      TimelyStepKeepsReplies(cfg, s, actions[0]);
      TimelyRunKeepsInv(cfg, Step(cfg, s, actions[0]), actions[1..]);
    }
  }

  /**
   * In every timely interleaving no second lead is created for the key before the stored response of
   * the first one lapses, and every 201 read within that span, replayed or direct, carries that lead.
   */
  lemma OneLeadPerKey(cfg: Config, actions: seq<Action>)
    requires cfg.Valid() && Timely(cfg, START, actions)
    ensures var s := Exec(cfg, START, actions);
      && OneLeadPerSpan(s.spans)
      && (forall r :: r in s.replies ==> exists i :: 0 <= i < |s.spans| && s.spans[i].lead == r.lead)
      && (forall r, i :: r in s.replies && 0 <= i < |s.spans| && InSpan(s.spans[i], r.at) ==> r.lead == s.spans[i].lead)
  {
    TimelyRunKeepsInv(cfg, START, actions);
  }

  /** Timeliness is needed: a lead inserted after its run's lock lapsed joins another one, whatever the TTLs. */
  lemma LateInsertDuplicates(cfg: Config, slow: string, quick: string, hash: string, lead: string, lead': string)
    requires cfg.Valid() && slow != quick
    ensures var s := Exec(cfg, START, [Arrive(slow, hash), Begin(slow, true)] + ([Tick(cfg.lockTTL)]
        + ([Arrive(quick, hash), Begin(quick, true)]
           + [Insert(quick, lead), Complete(quick, true), Insert(slow, lead')])));
      !OneLeadPerSpan(s.spans)
        && s.spans == [Span(lead, cfg.lockTTL, Some(cfg.lockTTL + cfg.resultTTL)), Span(lead', cfg.lockTTL, None)]
  {
    var inserts := [Insert(quick, lead), Complete(quick, true), Insert(slow, lead')];
    GrantThen(cfg, START, slow, hash, [Tick(cfg.lockTTL)] + ([Arrive(quick, hash), Begin(quick, true)] + inserts));
    OverdueInsertDuplicates(cfg, Granted(cfg, START, slow, hash), slow, quick, hash, lead, lead');
    SecondInFirst(Span(lead, cfg.lockTTL, Some(cfg.lockTTL + cfg.resultTTL)), Span(lead', cfg.lockTTL, None));
  }

  lemma SecondInFirst(first: Span, second: Span)
    requires first.until.Some? && second.createdAt < first.until.value
    ensures !OneLeadPerSpan([first, second])
  {
    var spans := [first, second];
    assert spans[0].until.Some? && !(spans[0].until.value <= spans[1].createdAt);
  }

  lemma OverdueInsertDuplicates(cfg: Config, s: State, slow: string, quick: string, hash: string, lead: string,
      lead': string)
    requires cfg.Valid() && quick !in s.runs && At(s, slow, Creating) && s.spans == []
    requires s.slot == Slot(Some(Entry(hash, s.now + cfg.resultTTL)), None, Some(Entry(slow, s.now + cfg.lockTTL)))
    ensures var spans := Exec(cfg, s, [Tick(cfg.lockTTL)]
        + ([Arrive(quick, hash), Begin(quick, true)]
           + [Insert(quick, lead), Complete(quick, true), Insert(slow, lead')])).spans;
      var late := s.now + cfg.lockTTL;
      spans == [Span(lead, late, Some(late + cfg.resultTTL)), Span(lead', late, None)]
  {
    var inserts := [Insert(quick, lead), Complete(quick, true), Insert(slow, lead')];
    var overdue := Follow(cfg, s, Tick(cfg.lockTTL), [Arrive(quick, hash), Begin(quick, true)] + inserts);
    GrantThen(cfg, overdue, quick, hash, inserts);
    QuickThenSlow(cfg, Granted(cfg, overdue, quick, hash), slow, quick, lead, lead');
  }

  lemma QuickThenSlow(cfg: Config, s: State, slow: string, quick: string, lead: string, lead': string)
    requires slow != quick && At(s, slow, Creating) && At(s, quick, Creating) && Holds(s.slot, s.now, quick)
      && s.spans == []
    ensures Exec(cfg, s, [Insert(quick, lead), Complete(quick, true), Insert(slow, lead')]).spans
            == [Span(lead, s.now, Some(s.now + cfg.resultTTL)), Span(lead', s.now, None)]
  {
    var rest := [Complete(quick, true), Insert(slow, lead')];
    var s1 := Follow(cfg, s, Insert(quick, lead), rest);
    var s2 := Follow(cfg, s1, Complete(quick, true), [Insert(slow, lead')]);
    var s3 := Follow(cfg, s2, Insert(slow, lead'), []);
    assert [Insert(quick, lead)] + rest == [Insert(quick, lead), Complete(quick, true), Insert(slow, lead')];
    assert [Complete(quick, true)] + [Insert(slow, lead')] == rest;
  }

  /** So does an INSERT that commits while the handler is told that it failed, with every step in time. */
  lemma LostAnswerDuplicates(cfg: Config, first: string, retry: string, hash: string, lead: string, lead': string)
    requires cfg.Valid() && first != retry
    ensures var s := Exec(cfg, START, [Arrive(first, hash), Begin(first, true)]
        + ([InsertUnseen(first, lead), Abort(first, true)]
        + ([Arrive(retry, hash), Begin(retry, true)] + [Insert(retry, lead')])));
      s.now == 0 && s.spans == [Span(lead, 0, None), Span(lead', 0, None)] && !OneLeadPerSpan(s.spans)
  {
    var lost := [InsertUnseen(first, lead), Abort(first, true)];
    GrantThen(cfg, START, first, hash, lost + ([Arrive(retry, hash), Begin(retry, true)] + [Insert(retry, lead')]));
    AbortThenRetry(cfg, Granted(cfg, START, first, hash), first, retry, hash, lead, lead');
    OpenSpanIsAlone([Span(lead, 0, None), Span(lead', 0, None)], 0, 1);
  }

  lemma AbortThenRetry(cfg: Config, s: State, first: string, retry: string, hash: string, lead: string, lead': string)
    requires cfg.Valid() && retry !in s.runs && At(s, first, Creating)
    requires s.slot == Slot(Some(Entry(hash, s.now + cfg.resultTTL)), None, Some(Entry(first, s.now + cfg.lockTTL)))
    ensures var end := Exec(cfg, s, [InsertUnseen(first, lead), Abort(first, true)]
        + ([Arrive(retry, hash), Begin(retry, true)] + [Insert(retry, lead')]));
      end.now == s.now && end.spans == s.spans + [Span(lead, s.now, None), Span(lead', s.now, None)]
  {
    var lost := [InsertUnseen(first, lead), Abort(first, true)];
    ExecSplits(cfg, s, lost, [Arrive(retry, hash), Begin(retry, true)] + [Insert(retry, lead')]);
    var freed := UnseenThenAbort(cfg, s, first, lead);
    GrantThen(cfg, freed, retry, hash, [Insert(retry, lead')]);
    var end := Follow(cfg, Granted(cfg, freed, retry, hash), Insert(retry, lead'), []);
    assert [Insert(retry, lead')] + [] == [Insert(retry, lead')];
  }

  lemma UnseenThenAbort(cfg: Config, s: State, token: string, lead: string) returns (end: State)
    requires cfg.Valid() && At(s, token, Creating) && Holds(s.slot, s.now, token)
    ensures end == Exec(cfg, s, [InsertUnseen(token, lead), Abort(token, true)])
    ensures end.now == s.now && end.slot == s.slot.(lock := None) && end.spans == s.spans + [Span(lead, s.now, None)]
    ensures end.runs.Keys == s.runs.Keys
  {
    var s1 := Follow(cfg, s, InsertUnseen(token, lead), [Abort(token, true)]);
    end := Follow(cfg, s1, Abort(token, true), []);
    assert [InsertUnseen(token, lead)] + [Abort(token, true)] == [InsertUnseen(token, lead), Abort(token, true)];
  }

  lemma SpanIsClosed(spans: seq<Span>, i: nat, j: nat)
    requires OneLeadPerSpan(spans) && i < j < |spans|
    ensures spans[i].until.Some? && spans[i].until.value <= spans[j].createdAt
  {
  }

  lemma OpenSpanIsAlone(spans: seq<Span>, i: nat, j: nat)
    requires i < j < |spans| && spans[i].until.None?
    ensures !OneLeadPerSpan(spans)
  {
    if OneLeadPerSpan(spans) {
      SpanIsClosed(spans, i, j);
    }
  }

  /** So does a Complete that never reaches Redis: a retry after the lock lapsed creates a second lead. */
  lemma LostCompleteDuplicates(cfg: Config, first: string, retry: string, hash: string, lead: string, lead': string)
    requires cfg.Valid() && first != retry
    ensures var s := Exec(cfg, START, [Arrive(first, hash), Begin(first, true)]
        + ([Insert(first, lead), Complete(first, false), Tick(cfg.lockTTL)]
        + ([Arrive(retry, hash), Begin(retry, true)] + [Insert(retry, lead')])));
      s.spans == [Span(lead, 0, None), Span(lead', cfg.lockTTL, None)] && At(s, first, Replied(lead))
  {
    var lost := [Insert(first, lead), Complete(first, false), Tick(cfg.lockTTL)];
    GrantThen(cfg, START, first, hash, lost + ([Arrive(retry, hash), Begin(retry, true)] + [Insert(retry, lead')]));
    RetryDuplicates(cfg, Granted(cfg, START, first, hash), first, retry, hash, lead, lead');
  }

  lemma RetryDuplicates(cfg: Config, s: State, first: string, retry: string, hash: string, lead: string, lead': string)
    requires cfg.Valid() && retry !in s.runs && At(s, first, Creating)
    requires s.slot == Slot(Some(Entry(hash, s.now + cfg.resultTTL)), None, Some(Entry(first, s.now + cfg.lockTTL)))
    ensures var end := Exec(cfg, s, [Insert(first, lead), Complete(first, false), Tick(cfg.lockTTL)]
        + ([Arrive(retry, hash), Begin(retry, true)] + [Insert(retry, lead')]));
      end.spans == s.spans + [Span(lead, s.now, None), Span(lead', s.now + cfg.lockTTL, None)]
        && At(end, first, Replied(lead))
  {
    var lost := [Insert(first, lead), Complete(first, false), Tick(cfg.lockTTL)];
    ExecSplits(cfg, s, lost, [Arrive(retry, hash), Begin(retry, true)] + [Insert(retry, lead')]);
    var overdue := CompleteIsLost(cfg, s, first, lead);
    GrantThen(cfg, overdue, retry, hash, [Insert(retry, lead')]);
    var end := Follow(cfg, Granted(cfg, overdue, retry, hash), Insert(retry, lead'), []);
    assert [Insert(retry, lead')] + [] == [Insert(retry, lead')];
  }

  lemma CompleteIsLost(cfg: Config, s: State, token: string, lead: string) returns (end: State)
    requires At(s, token, Creating)
    ensures end == Exec(cfg, s, [Insert(token, lead), Complete(token, false), Tick(cfg.lockTTL)])
    ensures end.now == s.now + cfg.lockTTL && end.slot == s.slot && end.spans == s.spans + [Span(lead, s.now, None)]
    ensures end.runs == s.runs[token := s.runs[token].(pc := Replied(lead))]
  {
    var rest := [Complete(token, false), Tick(cfg.lockTTL)];
    var s1 := Follow(cfg, s, Insert(token, lead), rest);
    var s2 := Follow(cfg, s1, Complete(token, false), [Tick(cfg.lockTTL)]);
    end := Follow(cfg, s2, Tick(cfg.lockTTL), []);
    assert [Insert(token, lead)] + rest == [Insert(token, lead), Complete(token, false), Tick(cfg.lockTTL)];
    assert [Complete(token, false)] + [Tick(cfg.lockTTL)] == rest;
  }

  // ---------------------------------------------------------------------------------------------
  // How often the lock is granted
  // ---------------------------------------------------------------------------------------------

  /**
   * Since the clock showed `start` the lock was granted `net` times more often than aborts released it.
   * Apart from the aborted ones, the grants lie a lock apart, and so does the next one.
   */
  ghost predicate GrantsAreSpaced(cfg: Config, s: State, start: nat, net: int) {
    var spacing := net * cfg.lockTTL;
    && spacing - cfg.lockTTL <= s.now - start
    && (Live(s.slot.lock, s.now).Some? ==> spacing <= s.slot.lock.value.expiresAt - start)
    && (Live(s.slot.response, s.now).Some? ==> spacing <= s.slot.response.value.expiresAt - start)
    && (Live(s.slot.lock, s.now).None? && Live(s.slot.response, s.now).None? ==> spacing <= s.now - start)
  }

  /** Grants that no abort undid. */
  function Net(s: State): int {
    s.proceeds - s.aborts
  }

  lemma StepKeepsSpacing(cfg: Config, s: State, a: Action, start: nat, net: int)
    requires cfg.Valid() && Inv(cfg, s) && GrantsAreSpaced(cfg, s, start, net)
    ensures GrantsAreSpaced(cfg, Step(cfg, s, a), start, net + (Net(Step(cfg, s, a)) - Net(s)))
  {
    var spacing := net * cfg.lockTTL;
    assert (net + 1) * cfg.lockTTL == spacing + cfg.lockTTL;
    assert (net - 1) * cfg.lockTTL == spacing - cfg.lockTTL;
  }

  lemma {:induction false} ExecKeepsSpacing(cfg: Config, s: State, actions: seq<Action>, start: nat, net: int)
    requires cfg.Valid() && Inv(cfg, s) && GrantsAreSpaced(cfg, s, start, net)
    ensures GrantsAreSpaced(cfg, Exec(cfg, s, actions), start, net + (Net(Exec(cfg, s, actions)) - Net(s)))
    decreases |actions|
  {
    if actions != [] {
      var next := Step(cfg, s, actions[0]);
      var net' := net + (Net(next) - Net(s));
      StepKeepsInv(cfg, s, actions[0]);
      StepKeepsSpacing(cfg, s, actions[0], start, net);
      ExecKeepsSpacing(cfg, next, actions[1..], start, net');
      assert net' + (Net(Exec(cfg, s, actions)) - Net(next)) == net + (Net(Exec(cfg, s, actions)) - Net(s));
    }
  }

  /**
   * Over any stretch of any run, timely or not, the lock is granted at most once, plus once per effective
   * abort, plus once per full lock TTL that passed.
   */
  lemma ProceedBound(cfg: Config, before: seq<Action>, stretch: seq<Action>)
    requires cfg.Valid()
    ensures var s := Exec(cfg, START, before);
      var end := Exec(cfg, s, stretch);
      end.proceeds - s.proceeds <= 1 + (end.aborts - s.aborts) + (end.now - s.now) / cfg.lockTTL
  {
    ExecKeepsInv(cfg, START, before);
    var s := Exec(cfg, START, before);
    var end := Exec(cfg, s, stretch);
    ExecKeepsSpacing(cfg, s, stretch, s.now, 0);
    ClockIsMonotone(cfg, s, stretch);
    DivideBy(Net(end) - Net(s) - 1, cfg.lockTTL, end.now - s.now);
  }

  /** What the grants so far cost in time: a result TTL if completed, nothing if aborted, a lock TTL otherwise. */
  function Cost(cfg: Config, s: State): int {
    (s.proceeds - s.aborts - s.completes) * cfg.lockTTL + s.completes * cfg.resultTTL
  }

  /** The time since `start`, with what is left of the lock or response now live, covers `cost`. */
  ghost predicate TimeCovers(s: State, start: nat, cost: int) {
    && (Live(s.slot.lock, s.now).Some? ==> cost <= s.slot.lock.value.expiresAt - start)
    && (Live(s.slot.response, s.now).Some? ==> cost <= s.slot.response.value.expiresAt - start)
    && (Live(s.slot.lock, s.now).None? && Live(s.slot.response, s.now).None? ==> cost <= s.now - start)
  }

  lemma CostGrows(cfg: Config, s: State, next: State)
    ensures Cost(cfg, next) - Cost(cfg, s) ==
      (next.proceeds - s.proceeds - (next.aborts - s.aborts) - (next.completes - s.completes)) * cfg.lockTTL
      + (next.completes - s.completes) * cfg.resultTTL
  {
    Distribute(next.proceeds - next.aborts - next.completes, s.proceeds - s.aborts - s.completes, cfg.lockTTL);
    Distribute(next.completes, s.completes, cfg.resultTTL);
  }

  lemma Distribute(a: int, b: int, d: int)
    ensures a * d - b * d == (a - b) * d
  {
  }

  /** Nothing is granted, aborted or completed: the cost stays, and time may pass. */
  lemma QuietStepKeepsCovered(cfg: Config, s: State, next: State, start: nat, cost: int)
    requires TimeCovers(s, start, cost) && next.slot == s.slot && s.now <= next.now && LockExcludesResponse(s)
    requires next.proceeds == s.proceeds && next.aborts == s.aborts && next.completes == s.completes
    ensures TimeCovers(next, start, cost + (Cost(cfg, next) - Cost(cfg, s)))
  {
  }

  lemma BeginKeepsCovered(cfg: Config, s: State, token: string, delivered: bool, start: nat, cost: int)
    requires cfg.Valid() && TimeCovers(s, start, cost) && At(s, token, Ready)
    ensures var next := StepBegin(cfg, s, token, delivered);
      TimeCovers(next, start, cost + (Cost(cfg, next) - Cost(cfg, s)))
  {
    CostGrows(cfg, s, StepBegin(cfg, s, token, delivered));
  }

  lemma CompleteKeepsCovered(cfg: Config, s: State, token: string, start: nat, cost: int)
    requires cfg.Valid() && LockIsBound(cfg, s) && TimeCovers(s, start, cost) && IsCreated(s, token)
      && Holds(s.slot, s.now, token)
    ensures var next := StepComplete(cfg, s, token, true);
      TimeCovers(next, start, cost + (Cost(cfg, next) - Cost(cfg, s)))
  {
    CostGrows(cfg, s, StepComplete(cfg, s, token, true));
  }

  lemma AbortKeepsCovered(cfg: Config, s: State, token: string, start: nat, cost: int)
    requires LockIsBound(cfg, s) && LockExcludesResponse(s) && TimeCovers(s, start, cost)
    requires At(s, token, Aborting) && Holds(s.slot, s.now, token)
    ensures var next := StepAbort(s, token, true); TimeCovers(next, start, cost + (Cost(cfg, next) - Cost(cfg, s)))
  {
    CostGrows(cfg, s, StepAbort(s, token, true));
  }

  lemma StepKeepsCovered(cfg: Config, s: State, a: Action, start: nat, cost: int)
    requires cfg.Valid() && Inv(cfg, s) && TimeCovers(s, start, cost)
    ensures var next := Step(cfg, s, a); TimeCovers(next, start, cost + (Cost(cfg, next) - Cost(cfg, s)))
  {
    if a.Begin? && At(s, a.token, Ready) {
      BeginKeepsCovered(cfg, s, a.token, a.delivered, start, cost);
    } else if a.Complete? && a.executed && IsCreated(s, a.token) && Holds(s.slot, s.now, a.token) {
      CompleteKeepsCovered(cfg, s, a.token, start, cost);
    } else if a.Abort? && a.executed && At(s, a.token, Aborting) && Holds(s.slot, s.now, a.token) {
      AbortKeepsCovered(cfg, s, a.token, start, cost);
    } else {
      QuietStepKeepsCovered(cfg, s, Step(cfg, s, a), start, cost);
    }
  }

  lemma {:induction false} ExecKeepsCovered(cfg: Config, s: State, actions: seq<Action>, start: nat, cost: int)
    requires cfg.Valid() && Inv(cfg, s) && TimeCovers(s, start, cost)
    ensures var end := Exec(cfg, s, actions); TimeCovers(end, start, cost + (Cost(cfg, end) - Cost(cfg, s)))
    decreases |actions|
  {
    if actions != [] {
      var next := Step(cfg, s, actions[0]);
      StepKeepsInv(cfg, s, actions[0]);
      StepKeepsCovered(cfg, s, actions[0], start, cost);
      ExecKeepsCovered(cfg, next, actions[1..], start, cost + (Cost(cfg, next) - Cost(cfg, s)));
    }
  }

  /**
   * A gap between two grants that a Complete closed lasts a whole result TTL, one that a lapse closed a lock
   * TTL: over any stretch these gaps fit into the time that passed and what is left of the last one.
   */
  lemma GapsFitTheTime(cfg: Config, before: seq<Action>, stretch: seq<Action>)
    requires cfg.Valid()
    ensures var s := Exec(cfg, START, before);
      var end := Exec(cfg, s, stretch);
      var stored := end.completes - s.completes;
      var lapsed := end.proceeds - s.proceeds - (end.aborts - s.aborts) - stored;
      var left := if Live(end.slot.response, end.now).Some? then cfg.resultTTL else cfg.lockTTL;
      lapsed * cfg.lockTTL + stored * cfg.resultTTL <= end.now - s.now + left
  {
    ExecKeepsInv(cfg, START, before);
    var s := Exec(cfg, START, before);
    ExecKeepsInv(cfg, s, stretch);
    ExecKeepsCovered(cfg, s, stretch, s.now, 0);
    CostGrows(cfg, s, Exec(cfg, s, stretch));
  }

  lemma DivideBy(n: int, d: nat, t: nat)
    requires 0 < d && (n + 1) * d - d <= t
    ensures n <= t / d
  {
    var k := t / d;
    assert t == k * d + t % d;
    if k < n {
      MultiplyBoth(k + 1, n, d);
    }
  }

  lemma MultiplyBoth(a: int, b: int, d: nat)
    requires a <= b
    ensures a * d <= b * d
  {
    assert b * d - a * d == (b - a) * d;
  }
}

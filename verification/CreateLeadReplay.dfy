/**
 * Whose response a replayed request is answered with. The begin script only says that there is one; a second
 * command reads it, and any number of other steps may come in between.
 */
module CreateLeadReplay {
  import opened Options
  import opened Redis
  import opened Idempotency
  import opened CreateLeadProtocol

  // ---------------------------------------------------------------------------------------------
  // The exact condition
  // ---------------------------------------------------------------------------------------------

  /** The response offered is the response read, unless it lapses in between. */
  lemma {:induction false} AuthorStays(cfg: Config, s: State, actions: seq<Action>)
    requires cfg.Valid() && Inv(cfg, s) && s.slot.response.Some?
    requires Exec(cfg, s, actions).now < s.slot.response.value.expiresAt
    ensures Exec(cfg, s, actions).author == s.author
    decreases |actions|
  {
    if actions != [] {
      var next := Step(cfg, s, actions[0]);
      ClockIsMonotone(cfg, next, actions[1..]);
      ClockIsMonotone(cfg, s, [actions[0]]);
      StepKeepsInv(cfg, s, actions[0]);
      AuthorStaysForAStep(cfg, s, actions[0]);
      AuthorStays(cfg, next, actions[1..]);
    }
  }

  lemma AuthorStaysForAStep(cfg: Config, s: State, a: Action)
    requires cfg.Valid() && Inv(cfg, s) && Live(s.slot.response, s.now).Some?
    ensures Step(cfg, s, a).author == s.author && Step(cfg, s, a).slot.response == s.slot.response
  {
  }

  lemma HashStaysForAStep(cfg: Config, s: State, a: Action, token: string)
    requires token in s.runs
    ensures token in Step(cfg, s, a).runs && Step(cfg, s, a).runs[token].requestHash == s.runs[token].requestHash
  {
  }

  lemma {:induction false} HashStays(cfg: Config, s: State, actions: seq<Action>, token: string)
    requires token in s.runs
    ensures token in Exec(cfg, s, actions).runs
    ensures Exec(cfg, s, actions).runs[token].requestHash == s.runs[token].requestHash
    decreases |actions|
  {
    if actions != [] {
      HashStaysForAStep(cfg, s, actions[0], token);
      HashStays(cfg, Step(cfg, s, actions[0]), actions[1..], token);
    }
  }

  /** The run got its 201 with the response of a run that had another body. */
  predicate AnswersAnother(s: State, token: string) {
    && token in s.runs && s.runs[token].pc.Replied? && s.author in s.runs
    && s.runs[s.author].requestHash != s.runs[token].requestHash
  }

  /** The request hash the binding was last written with, lapsed or not. */
  predicate LastBoundTo(s: State, hash: string) {
    s.slot.binding.Some? && s.slot.binding.value.value == hash
  }

  /** When the script has run for `token` and found a response. */
  predicate IsOffered(s: State, token: string) {
    At(s, token, Ready) && BeginVerdict(s.slot, s.now, s.runs[token].requestHash) == Stored
  }

  /**
   * The condition, to be read off the key before Begin and before the read. If the response that was offered
   * is still live when it is read, the binding must have lapsed before Begin; if it has lapsed, a later run
   * must have bound the key to another body and stored its response.
   */
  predicate CrossesBodies(s: State, r: State, token: string)
    requires s.slot.response.Some? && token in s.runs
  {
    var hash := s.runs[token].requestHash;
    if r.now < s.slot.response.value.expiresAt then
      Live(s.slot.binding, s.now).None? && !LastBoundTo(s, hash)
    else
      Live(r.slot.response, r.now).Some? && !LastBoundTo(r, hash)
  }

  /** The states at the script and at the read, with what both have in common. */
  lemma OfferedState(cfg: Config, before: seq<Action>, token: string) returns (s: State)
    requires cfg.Valid() && IsOffered(Exec(cfg, START, before), token)
    ensures s == Exec(cfg, START, before)
    ensures Inv(cfg, s) && Live(s.slot.response, s.now).Some? && s.author in s.runs
    ensures LastBoundTo(s, s.runs[s.author].requestHash) && s.author != token
  {
    s := Exec(cfg, START, before);
    ExecKeepsInv(cfg, START, before);
  }

  /** Reading answers with the response of the last author, whose hash the binding was last written with. */
  lemma ReadAnswers(cfg: Config, r: State, token: string)
    requires Inv(cfg, r) && At(r, token, Reading)
    ensures var answered := Step(cfg, r, Read(token));
      && (answered.runs[token].pc.Replied? <==> Live(r.slot.response, r.now).Some?)
      && (answered.runs[token].pc.Replied? ==>
            && r.author in r.runs && answered.runs[token].pc == r.runs[r.author].pc
            && LastBoundTo(r, r.runs[r.author].requestHash))
      && (AnswersAnother(answered, token) <==>
            Live(r.slot.response, r.now).Some? && !LastBoundTo(r, r.runs[token].requestHash))
  {
  }

  /** While the offered response is live nobody binds the key anew. */
  lemma {:induction false} BindingStays(cfg: Config, s: State, actions: seq<Action>)
    requires cfg.Valid() && Inv(cfg, s) && s.slot.response.Some?
    requires Exec(cfg, s, actions).now < s.slot.response.value.expiresAt
    ensures Exec(cfg, s, actions).slot.binding == s.slot.binding
    decreases |actions|
  {
    if actions != [] {
      var next := Step(cfg, s, actions[0]);
      ClockIsMonotone(cfg, next, actions[1..]);
      ClockIsMonotone(cfg, s, [actions[0]]);
      StepKeepsInv(cfg, s, actions[0]);
      BindingStaysForAStep(cfg, s, actions[0]);
      AuthorStaysForAStep(cfg, s, actions[0]);
      BindingStays(cfg, next, actions[1..]);
    }
  }

  lemma BindingStaysForAStep(cfg: Config, s: State, a: Action)
    requires Live(s.slot.response, s.now).Some?
    ensures Step(cfg, s, a).slot.binding == s.slot.binding
  {
  }

  /**
   * When a request is answered with the response of a request whose body was different, over every run up to
   * its Begin and every run from there to its read: if and only if `CrossesBodies`. Every 201 carries the
   * response of the last author, which is the run whose response was offered if that is still live.
   */
  lemma ReplayAcrossBodiesIff(cfg: Config, before: seq<Action>, during: seq<Action>, token: string)
    requires cfg.Valid() && IsOffered(Exec(cfg, START, before), token)
    requires At(Exec(cfg, Step(cfg, Exec(cfg, START, before), Begin(token, true)), during), token, Reading)
    ensures var s := Exec(cfg, START, before);
      var r := Exec(cfg, Step(cfg, s, Begin(token, true)), during);
      var answered := Step(cfg, r, Read(token));
      && s.slot.response.Some?
      && (AnswersAnother(answered, token) <==> CrossesBodies(s, r, token))
      && (answered.runs[token].pc.Replied? ==> r.author in r.runs && answered.runs[token].pc == r.runs[r.author].pc)
      && (r.now < s.slot.response.value.expiresAt ==>
            answered.runs[token].pc == Replied(s.slot.response.value.value) && answered.author == s.author)
  {
    var s := OfferedState(cfg, before, token);
    var begun := Step(cfg, s, Begin(token, true));
    var r := Exec(cfg, begun, during);
    StepKeepsInv(cfg, s, Begin(token, true));
    ExecKeepsInv(cfg, begun, during);
    HashStays(cfg, begun, during, token);
    ReadAnswers(cfg, r, token);
    if r.now < s.slot.response.value.expiresAt {
      LiveResponseIsFinal(cfg, begun, during);
      AuthorStays(cfg, begun, during);
      BindingStays(cfg, begun, during);
    }
  }

  // ---------------------------------------------------------------------------------------------
  // The second case is reached, with a binding that was live and fitting at Begin
  // ---------------------------------------------------------------------------------------------

  /** A request that comes when the key is free, inserts its lead and stores its response at once. */
  function Served(token: string, hash: string, lead: string): seq<Action> {
    [Arrive(token, hash), Begin(token, true)] + [Insert(token, lead), Complete(token, true)]
  }

  lemma ServedStores(cfg: Config, s: State, token: string, hash: string, lead: string) returns (end: State)
    requires cfg.Valid() && token !in s.runs && BeginVerdict(s.slot, s.now, hash) == Acquired
    ensures end == Exec(cfg, s, Served(token, hash, lead))
    ensures end.now == s.now && end.author == token && end.runs == s.runs[token := Run(hash, Replied(lead))]
    ensures end.slot == Slot(Some(Entry(hash, s.now + cfg.resultTTL)), Some(Entry(lead, s.now + cfg.resultTTL)), None)
  {
    GrantThen(cfg, s, token, hash, [Insert(token, lead), Complete(token, true)]);
    var s1 := Follow(cfg, Granted(cfg, s, token, hash), Insert(token, lead), [Complete(token, true)]);
    end := Follow(cfg, s1, Complete(token, true), []);
    assert [Insert(token, lead)] + [Complete(token, true)] == [Insert(token, lead), Complete(token, true)];
    assert end.runs == s.runs[token := Run(hash, Replied(lead))];
  }

  /** A moment before everything lapses a second request arrives and begins. */
  function LastMoment(cfg: Config, token: string, hash: string): seq<Action>
    requires cfg.Valid()
  {
    [Tick(cfg.resultTTL - 1), Arrive(token, hash), Begin(token, true)]
  }

  lemma LastMomentReads(cfg: Config, s: State, token: string, hash: string) returns (end: State)
    requires cfg.Valid() && token !in s.runs && s.slot.response.Some?
    requires s.slot.response.value.expiresAt == s.now + cfg.resultTTL && LastBoundTo(s, hash)
    ensures end == Exec(cfg, s, LastMoment(cfg, token, hash))
    ensures end.now == s.now + cfg.resultTTL - 1 && end.slot == s.slot
    ensures end.runs == s.runs[token := Run(hash, Reading)]
  {
    var s1 := Follow(cfg, s, Tick(cfg.resultTTL - 1), [Arrive(token, hash), Begin(token, true)]);
    var s2 := Follow(cfg, s1, Arrive(token, hash), [Begin(token, true)]);
    end := Follow(cfg, s2, Begin(token, true), []);
    assert [Arrive(token, hash)] + [Begin(token, true)] == [Arrive(token, hash), Begin(token, true)];
    assert [Tick(cfg.resultTTL - 1)] + [Arrive(token, hash), Begin(token, true)] == LastMoment(cfg, token, hash);
    assert end.runs == s.runs[token := Run(hash, Reading)];
  }

  /**
   * The first request and the second have the same body, the binding says so, and still: the response lapses
   * before the second one reads it, a third request with another body is served, and the second is answered
   * with the lead of the third.
   */
  lemma LateReadCrossesBodies(cfg: Config, first: string, second: string, third: string, hash: string, other: string,
      lead: string, lead': string)
    requires cfg.Valid() && first != second && second != third && third != first && hash != other
    ensures var s := Exec(cfg, START, Served(first, hash, lead) + LastMoment(cfg, second, hash));
      var end := Exec(cfg, s, ([Tick(1)] + Served(third, other, lead')) + [Read(second)]);
      && Live(s.slot.binding, s.now) == Some(hash) && LastBoundTo(end, other)
      && At(end, second, Replied(lead')) && AnswersAnother(end, second)
  {
    var s1 := ServedStores(cfg, START, first, hash, lead);
    ExecSplits(cfg, START, Served(first, hash, lead), LastMoment(cfg, second, hash));
    var s2 := LastMomentReads(cfg, s1, second, hash);
    var s3 := Follow(cfg, s2, Tick(1), Served(third, other, lead'));
    var s4 := ServedStores(cfg, s3, third, other, lead');
    ExecSplits(cfg, s2, [Tick(1)] + Served(third, other, lead'), [Read(second)]);
    var s5 := Follow(cfg, s4, Read(second), []);
    assert [Read(second)] + [] == [Read(second)];
  }
}

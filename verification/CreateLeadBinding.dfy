/**
 * What the begin script does for a request, read off the three keys, and what the binding it writes holds off:
 * for a whole result TTL after a grant, a request with another body gets nothing under the key.
 */
module CreateLeadBinding {
  import opened Options
  import opened Redis
  import opened Idempotency
  import opened CreateLeadProtocol

  /** A request that begins goes on to create, to read or to be refused by what is live under the key alone. */
  lemma BeginIff(cfg: Config, s: State, token: string)
    requires At(s, token, Ready)
    ensures var hash, next := s.runs[token].requestHash, Step(cfg, s, Begin(token, true));
      && (At(next, token, Creating) <==> IsFree(s.slot, s.now, hash))
      && (At(next, token, Reading) <==> !IsBoundToAnother(s.slot, s.now, hash) && Live(s.slot.response, s.now).Some?)
      && (At(next, token, Creating) || At(next, token, Reading) || At(next, token, Refused))
      && (!At(next, token, Creating) ==> next.slot == s.slot)
      && (At(next, token, Creating) ==>
            && next.slot.lock == Some(Entry(token, s.now + cfg.lockTTL)) && next.slot.response == s.slot.response
            && next.slot.binding == Some(Entry(hash, s.now + cfg.resultTTL)))
  {
  }

  /** A retry with the body that the key is bound to, or after the binding lapsed, is answered with what is stored. */
  lemma RetryIsReplayed(cfg: Config, s: State, token: string, hash: string)
    requires token !in s.runs && Live(s.slot.response, s.now).Some? && !IsBoundToAnother(s.slot, s.now, hash)
    ensures var end := Exec(cfg, s, [Arrive(token, hash), Begin(token, true), Read(token)]);
      At(end, token, Replied(s.slot.response.value.value)) && end.slot == s.slot && end.spans == s.spans
  {
    var s1 := Follow(cfg, s, Arrive(token, hash), [Begin(token, true), Read(token)]);
    var s2 := Follow(cfg, s1, Begin(token, true), [Read(token)]);
    var s3 := Follow(cfg, s2, Read(token), []);
    assert [Arrive(token, hash)] + [Begin(token, true), Read(token)]
      == [Arrive(token, hash), Begin(token, true), Read(token)];
    assert [Begin(token, true)] + [Read(token)] == [Begin(token, true), Read(token)];
  }

  // ---------------------------------------------------------------------------------------------
  // A bound key refuses other bodies
  // ---------------------------------------------------------------------------------------------

  /** The key is bound to `hash` until `until` at least. */
  predicate IsBound(s: State, hash: string, until: nat) {
    && s.slot.binding.Some? && s.slot.binding.value.value == hash
    && until <= s.slot.binding.value.expiresAt
  }

  lemma StepKeepsBound(cfg: Config, s: State, a: Action, hash: string, until: nat)
    requires IsBound(s, hash, until) && s.now < until <= s.now + cfg.resultTTL
    ensures IsBound(Step(cfg, s, a), hash, until)
  {
  }

  /** A run with another body that begins while the key is bound is refused. */
  predicate IsHeldOff(s: State, token: string, hash: string) {
    token in s.runs && s.runs[token].requestHash != hash ==> s.runs[token].pc.Ready? || s.runs[token].pc.Refused?
  }

  lemma StepKeepsHeldOff(cfg: Config, s: State, a: Action, token: string, hash: string, until: nat)
    requires IsBound(s, hash, until) && s.now < until && IsHeldOff(s, token, hash)
    ensures IsHeldOff(Step(cfg, s, a), token, hash)
  {
  }

  lemma {:induction false} ExecKeepsBound(cfg: Config, s: State, actions: seq<Action>, token: string, hash: string,
      until: nat)
    requires IsBound(s, hash, until) && until <= s.now + cfg.resultTTL && IsHeldOff(s, token, hash)
    requires Exec(cfg, s, actions).now < until
    ensures IsBound(Exec(cfg, s, actions), hash, until) && IsHeldOff(Exec(cfg, s, actions), token, hash)
    decreases |actions|
  {
    ClockIsMonotone(cfg, s, actions);
    if actions != [] {
      ClockIsMonotone(cfg, s, [actions[0]]);
      StepKeepsBound(cfg, s, actions[0], hash, until);
      StepKeepsHeldOff(cfg, s, actions[0], token, hash, until);
      ExecKeepsBound(cfg, Step(cfg, s, actions[0]), actions[1..], token, hash, until);
    }
  }

  predicate IsOf(a: Action, token: string) {
    !a.Tick? && a.token == token
  }

  /** Nothing such a run may do next changes a key or inserts a lead. */
  lemma HeldOffDoesNothing(cfg: Config, s: State, a: Action, token: string, hash: string)
    requires token in s.runs && s.runs[token].requestHash != hash && IsHeldOff(s, token, hash)
    requires Live(s.slot.binding, s.now) == Some(hash) && IsOf(a, token)
    ensures Step(cfg, s, a).slot == s.slot && Step(cfg, s, a).spans == s.spans && Step(cfg, s, a).proceeds == s.proceeds
  {
  }

  /** A run with another body that had not begun before. */
  predicate IsStranger(before: State, s: State, token: string, hash: string) {
    && token in s.runs && s.runs[token].requestHash != hash
    && (token in before.runs ==> before.runs[token].pc.Ready?)
  }

  /**
   * After a grant, in every continuation and for a whole result TTL, the key is bound to the body it was
   * granted for; and a run with another body that had not begun by then has been granted nothing, read
   * nothing and inserted nothing, and whatever it does next changes no key and inserts no lead.
   */
  lemma BoundKeyRefusesOthers(cfg: Config, s: State, granted: string, delivered: bool, during: seq<Action>,
      other: string, a: Action)
    requires At(s, granted, Ready)
    requires Step(cfg, s, Begin(granted, delivered)).proceeds == s.proceeds + 1
    requires Exec(cfg, Step(cfg, s, Begin(granted, delivered)), during).now < s.now + cfg.resultTTL
    ensures var hash := s.runs[granted].requestHash;
      var begun := Step(cfg, s, Begin(granted, delivered));
      var end := Exec(cfg, begun, during);
      && Live(end.slot.binding, end.now) == Some(hash)
      && (IsStranger(begun, end, other, hash) ==> end.runs[other].pc.Ready? || end.runs[other].pc.Refused?)
      && (IsStranger(begun, end, other, hash) && IsOf(a, other) ==>
            Step(cfg, end, a).slot == end.slot && Step(cfg, end, a).spans == end.spans)
  {
    var hash := s.runs[granted].requestHash;
    var begun := Step(cfg, s, Begin(granted, delivered));
    var end := Exec(cfg, begun, during);
    ExecKeepsBound(cfg, begun, during, granted, hash, s.now + cfg.resultTTL);
    if IsStranger(begun, end, other, hash) {
      ExecKeepsBound(cfg, begun, during, other, hash, s.now + cfg.resultTTL);
      if other in end.runs && end.runs[other].requestHash != hash && IsOf(a, other) {
        HeldOffDoesNothing(cfg, end, a, other, hash);
      }
    }
  }
}

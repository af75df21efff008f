/**
 * A finished request leaves no lock behind: while nothing is lost, the lock of a key belongs to a request that is
 * still at work, and a rejected request can be tried again at once.
 */
module CreateLeadRelease {
  import opened Options
  import opened Redis
  import opened Idempotency
  import opened CreateLeadProtocol

  /** The begin script's answer arrives, and the scripts that end a request run. */
  predicate IsDelivered(a: Action) {
    match a
    case Begin(_, delivered) => delivered
    case Complete(_, executed) => executed
    case Abort(_, executed) => executed
    case _ => true
  }

  predicate IsAtWork(s: State, token: string) {
    token in s.runs && (s.runs[token].pc.Creating? || s.runs[token].pc.Created? || s.runs[token].pc.Aborting?)
  }

  predicate LockIsOwned(s: State) {
    Live(s.slot.lock, s.now).Some? ==> IsAtWork(s, s.slot.lock.value.value)
  }

  lemma StepKeepsLockOwned(cfg: Config, s: State, a: Action)
    requires LockIsOwned(s) && IsDelivered(a)
    ensures LockIsOwned(Step(cfg, s, a))
  {
  }

  lemma {:induction false} ExecKeepsLockOwned(cfg: Config, s: State, actions: seq<Action>)
    requires LockIsOwned(s) && forall i :: 0 <= i < |actions| ==> IsDelivered(actions[i])
    ensures LockIsOwned(Exec(cfg, s, actions))
    decreases |actions|
  {
    if actions != [] {
      StepKeepsLockOwned(cfg, s, actions[0]);
      ExecKeepsLockOwned(cfg, Step(cfg, s, actions[0]), actions[1..]);
    }
  }

  /** Where a newcomer stands once it has begun. */
  function Newcomer(cfg: Config, s: State, token: string, hash: string): State {
    Exec(cfg, s, [Arrive(token, hash), Begin(token, true)])
  }

  lemma NewcomerBegins(cfg: Config, s: State, token: string, hash: string)
    requires token !in s.runs
    ensures Newcomer(cfg, s, token, hash) == Step(cfg, Step(cfg, s, Arrive(token, hash)), Begin(token, true))
    ensures At(Newcomer(cfg, s, token, hash), token, Creating) <==> IsFree(s.slot, s.now, hash)
  {
    var arrived := Follow(cfg, s, Arrive(token, hash), [Begin(token, true)]);
    var begun := Follow(cfg, arrived, Begin(token, true), []);
    assert [Arrive(token, hash)] + [Begin(token, true)] == [Arrive(token, hash), Begin(token, true)];
  }

  /**
   * In every run in which nothing is lost, when no request is at work on the key, a newcomer is granted the lock
   * if and only if no response is stored and the key is not bound to another body.
   */
  lemma IdleKeyIsGrantedIff(cfg: Config, actions: seq<Action>, token: string, hash: string)
    requires forall i :: 0 <= i < |actions| ==> IsDelivered(actions[i])
    requires forall t :: t in Exec(cfg, START, actions).runs ==> !IsAtWork(Exec(cfg, START, actions), t)
    requires token !in Exec(cfg, START, actions).runs
    ensures var s := Exec(cfg, START, actions);
      At(Newcomer(cfg, s, token, hash), token, Creating) <==>
        Live(s.slot.response, s.now).None? && !IsBoundToAnother(s.slot, s.now, hash)
  {
    ExecKeepsLockOwned(cfg, START, actions);
    NewcomerBegins(cfg, Exec(cfg, START, actions), token, hash);
  }

  /** A lead that the service refuses frees the key at once for the same body: a retry is granted. */
  lemma RejectedIsRetried(cfg: Config, s: State, token: string, retry: string)
    requires At(s, token, Creating) && Holds(s.slot, s.now, token) && retry !in s.runs
    requires var hash := s.runs[token].requestHash;
      Live(s.slot.response, s.now).None? && !IsBoundToAnother(s.slot, s.now, hash)
    ensures var rejected := Exec(cfg, s, [Reject(token), Abort(token, true)]);
      && At(rejected, token, Refused) && rejected.slot == s.slot.(lock := None) && rejected.spans == s.spans
      && At(Newcomer(cfg, rejected, retry, s.runs[token].requestHash), retry, Creating)
  {
    var aborting := Follow(cfg, s, Reject(token), [Abort(token, true)]);
    var rejected := Follow(cfg, aborting, Abort(token, true), []);
    assert [Reject(token)] + [Abort(token, true)] == [Reject(token), Abort(token, true)];
    NewcomerBegins(cfg, rejected, retry, s.runs[token].requestHash);
  }

  /** When the begin script's answer is lost, nobody is at work, and the key stays locked for exactly the lock TTL. */
  lemma LostAnswerLocksUntil(cfg: Config, token: string, retry: string, hash: string, wait: nat)
    requires token != retry && 0 < cfg.lockTTL
    ensures var s := Exec(cfg, START, [Arrive(token, hash), Begin(token, false), Tick(wait)]);
      && (forall t :: t in s.runs ==> !IsAtWork(s, t))
      && (At(Newcomer(cfg, s, retry, hash), retry, Creating) <==> cfg.lockTTL <= wait)
  {
    var s1 := Follow(cfg, START, Arrive(token, hash), [Begin(token, false), Tick(wait)]);
    var s2 := Follow(cfg, s1, Begin(token, false), [Tick(wait)]);
    var s3 := Follow(cfg, s2, Tick(wait), []);
    assert [Arrive(token, hash)] + [Begin(token, false), Tick(wait)]
      == [Arrive(token, hash), Begin(token, false), Tick(wait)];
    assert [Begin(token, false)] + [Tick(wait)] == [Begin(token, false), Tick(wait)];
    NewcomerBegins(cfg, s3, retry, hash);
  }
}

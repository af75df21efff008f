/** The create-lead handler itself (internal/lead/controller/http.go), one uninterrupted call at a time. */
module CreateLeadHandler {
  import opened Options
  import opened Redis
  import opened Idempotency
  import opened CreateLeadProtocol

  /** A slot on which a single handler is about to call Begin. */
  function Alone(now: nat, slot: Slot, token: string, requestHash: string): State {
    State(now, slot, map[token := Run(requestHash, Ready)], [], [], "", 0, 0, 0)
  }

  /** What the service does with the request: it may insert the lead and still report an error. */
  datatype Outcome = Made(lead: string) | NotMade | MadeUnseen(lead: string)

  function Serve(token: string, outcome: Outcome): Action {
    match outcome
    case Made(lead) => Insert(token, lead)
    case NotMade => Reject(token)
    case MadeUnseen(lead) => InsertUnseen(token, lead)
  }

  /** The lead in the answer, and the lead in the table. */
  function AnswerOf(outcome: Outcome): Option<string> {
    if outcome.Made? then Some(outcome.lead) else None
  }

  function Inserted(outcome: Outcome): seq<string> {
    if outcome.NotMade? then [] else [outcome.lead]
  }

  /** The steps of one handler. */
  function OneCall(token: string, outcome: Outcome, wait: nat, wait': nat): seq<Action> {
    [Begin(token, true), Tick(wait), Read(token), Serve(token, outcome),
     Tick(wait'), Complete(token, true), Abort(token, true)]
  }

  /** The body of a 201, if that is the answer. */
  function BodyOf(s: State, token: string): Option<string> {
    if token in s.runs && s.runs[token].pc.Replied? then Some(s.runs[token].pc.lead) else None
  }

  /** How the call begins, until its answer from the begin script arrives. */
  function Begun(cfg: Config, s: State, token: string, wait: nat): State {
    Step(cfg, Step(cfg, s, Begin(token, true)), Tick(wait))
  }

  /** The protocol's other steps, taken one after the other, spelled out. */
  lemma OneCallUnfolded(cfg: Config, s: State, token: string, outcome: Outcome, wait: nat, wait': nat)
      returns (end: State)
    ensures end == Exec(cfg, s, OneCall(token, outcome, wait, wait'))
    ensures end == Step(cfg, Step(cfg, Step(cfg, Step(cfg, Step(cfg, Begun(cfg, s, token, wait),
      Read(token)), Serve(token, outcome)),
      Tick(wait')), Complete(token, true)), Abort(token, true))
  {
    var done := [Complete(token, true), Abort(token, true)];
    var served := Serve(token, outcome);
    var serving := [Read(token)] + ([served] + ([Tick(wait')] + done));
    var s1 := Follow(cfg, s, Begin(token, true), [Tick(wait)] + serving);
    var s2 := Follow(cfg, s1, Tick(wait), serving);
    var s3 := Follow(cfg, s2, Read(token), [served] + ([Tick(wait')] + done));
    var s4 := Follow(cfg, s3, served, [Tick(wait')] + done);
    var s5 := Follow(cfg, s4, Tick(wait'), done);
    var s6 := Follow(cfg, s5, Complete(token, true), [Abort(token, true)]);
    end := Follow(cfg, s6, Abort(token, true), []);
    assert [Complete(token, true)] + [Abort(token, true)] == done;
    assert [Begin(token, true)] + ([Tick(wait)] + serving) == OneCall(token, outcome, wait, wait');
  }

  function Leads(s: State): seq<string> {
    seq(|s.spans|, i requires 0 <= i < |s.spans| => s.spans[i].lead)
  }

  /** What one uninterrupted call leaves behind: the key's slot, the answer, the leads inserted. */
  datatype Call = Call(slot: Slot, created: Option<string>, inserted: seq<string>)

  function RunAlone(cfg: Config, start: nat, slot: Slot, token: string, hash: string, outcome: Outcome,
      wait: nat, wait': nat): Call {
    var s := Exec(cfg, Alone(start, slot, token, hash), OneCall(token, outcome, wait, wait'));
    Call(s.slot, BodyOf(s, token), Leads(s))
  }

  /** The same, by the verdict of the begin script. */
  function CallResult(cfg: Config, start: nat, slot: Slot, token: string, hash: string, outcome: Outcome,
      wait: nat, wait': nat): Call {
    var end, begun := start + wait + wait', BeginScript(cfg, slot, start, hash, token);
    match BeginVerdict(slot, start, hash)
    case Acquired =>
      if outcome.Made?
      then Call(CompleteScript(cfg, begun, end, token, outcome.lead), Some(outcome.lead), [outcome.lead])
      else Call(AbortScript(begun, end, token), None, Inserted(outcome))
    case Stored => Call(slot, Live(slot.response, start + wait), [])
    case _ => Call(slot, None, [])
  }

  predicate IsARun(cfg: Config, start: nat, slot: Slot, token: string, hash: string, outcome: Outcome,
      wait: nat, wait': nat) {
    RunAlone(cfg, start, slot, token, hash, outcome, wait, wait')
      == CallResult(cfg, start, slot, token, hash, outcome, wait, wait')
  }

  /** Steps a run that has its answer does not take. */
  lemma AnsweredRunStays(cfg: Config, s: State, token: string, outcome: Outcome, wait': nat)
    requires token in s.runs && (s.runs[token].pc.Replied? || s.runs[token].pc.Refused?)
    ensures Step(cfg, Step(cfg, Step(cfg, Step(cfg, s,
      Serve(token, outcome)),
      Tick(wait')), Complete(token, true)), Abort(token, true)) == s.(now := s.now + wait')
  {
  }

  lemma BegunIsGranted(cfg: Config, start: nat, slot: Slot, token: string, hash: string, wait: nat)
    requires BeginVerdict(slot, start, hash) == Acquired
    ensures var begun := Begun(cfg, Alone(start, slot, token, hash), token, wait);
      && At(begun, token, Creating) && begun.spans == [] && begun.now == start + wait
      && begun.slot == BeginScript(cfg, slot, start, hash, token)
      && Step(cfg, begun, Read(token)) == begun
  {
  }

  lemma CreatingCallIsARun(cfg: Config, start: nat, slot: Slot, token: string, hash: string, outcome: Outcome,
      wait: nat, wait': nat)
    requires BeginVerdict(slot, start, hash) == Acquired && outcome.Made?
    ensures IsARun(cfg, start, slot, token, hash, outcome, wait, wait')
  {
    var s0 := Alone(start, slot, token, hash);
    var s := OneCallUnfolded(cfg, s0, token, outcome, wait, wait');
    BegunIsGranted(cfg, start, slot, token, hash, wait);
    CreatingRunCompletes(cfg, Begun(cfg, s0, token, wait), token, outcome.lead, wait');
  }

  lemma RejectedCallIsARun(cfg: Config, start: nat, slot: Slot, token: string, hash: string, outcome: Outcome,
      wait: nat, wait': nat)
    requires BeginVerdict(slot, start, hash) == Acquired && !outcome.Made?
    ensures IsARun(cfg, start, slot, token, hash, outcome, wait, wait')
  {
    var s0 := Alone(start, slot, token, hash);
    var s := OneCallUnfolded(cfg, s0, token, outcome, wait, wait');
    BegunIsGranted(cfg, start, slot, token, hash, wait);
    CreatingRunAborts(cfg, Begun(cfg, s0, token, wait), token, outcome, wait');
  }

  lemma CreatingRunCompletes(cfg: Config, s: State, token: string, lead: string, wait': nat)
    requires At(s, token, Creating) && s.spans == []
    ensures var done := Step(cfg, Step(cfg, Step(cfg, s, Insert(token, lead)), Tick(wait')), Complete(token, true));
      var end := Step(cfg, done, Abort(token, true));
      && end.slot == CompleteScript(cfg, s.slot, s.now + wait', token, lead)
      && At(end, token, Replied(lead)) && Leads(end) == [lead]
  {
  }

  lemma CreatingRunAborts(cfg: Config, s: State, token: string, outcome: Outcome, wait': nat)
    requires At(s, token, Creating) && s.spans == [] && !outcome.Made?
    ensures var done := Step(cfg, Step(cfg, Step(cfg, s, Serve(token, outcome)), Tick(wait')), Complete(token, true));
      var end := Step(cfg, done, Abort(token, true));
      && end.slot == AbortScript(s.slot, s.now + wait', token) && At(end, token, Refused)
      && Leads(end) == Inserted(outcome)
  {
  }

  lemma ReplayedCallIsARun(cfg: Config, start: nat, slot: Slot, token: string, hash: string, outcome: Outcome,
      wait: nat, wait': nat)
    requires BeginVerdict(slot, start, hash) == Stored
    ensures IsARun(cfg, start, slot, token, hash, outcome, wait, wait')
  {
    var s0 := Alone(start, slot, token, hash);
    var s := OneCallUnfolded(cfg, s0, token, outcome, wait, wait');
    var begun := Begun(cfg, s0, token, wait);
    assert At(begun, token, Reading);
    AnsweredRunStays(cfg, Step(cfg, begun, Read(token)), token, outcome, wait');
  }

  lemma RefusedCallIsARun(cfg: Config, start: nat, slot: Slot, token: string, hash: string, outcome: Outcome,
      wait: nat, wait': nat)
    requires BeginVerdict(slot, start, hash).Mismatch? || BeginVerdict(slot, start, hash).Busy?
    ensures IsARun(cfg, start, slot, token, hash, outcome, wait, wait')
  {
    var s0 := Alone(start, slot, token, hash);
    var s := OneCallUnfolded(cfg, s0, token, outcome, wait, wait');
    var begun := Begun(cfg, s0, token, wait);
    assert At(begun, token, Refused) && Step(cfg, begun, Read(token)) == begun;
    AnsweredRunStays(cfg, begun, token, outcome, wait');
  }

  /** A call nobody interrupts, which is what `Handler.CreateLead` is proved to be, is a run of the protocol. */
  lemma UninterruptedCallIsARun(cfg: Config, start: nat, slot: Slot, token: string, hash: string,
      outcome: Outcome, wait: nat, wait': nat)
    ensures RunAlone(cfg, start, slot, token, hash, outcome, wait, wait')
      == CallResult(cfg, start, slot, token, hash, outcome, wait, wait')
  {
    match BeginVerdict(slot, start, hash)
    case Acquired =>
      if outcome.Made? {
        CreatingCallIsARun(cfg, start, slot, token, hash, outcome, wait, wait');
      } else {
        RejectedCallIsARun(cfg, start, slot, token, hash, outcome, wait, wait');
      }
    case Stored => ReplayedCallIsARun(cfg, start, slot, token, hash, outcome, wait, wait');
    case _ => RefusedCallIsARun(cfg, start, slot, token, hash, outcome, wait, wait');
  }

  class Handler {
    const store: Store
    var leads: seq<string>

    constructor (store: Store)
      ensures this.store == store && leads == []
    {
      this.store := store;
      leads := [];
    }

    /**
     * Begins at `start`, reads or creates at `middle`, completes or aborts at `end`. Without a key the
     * lead is created unconditionally and Redis is left alone.
     */
    method CreateLead(start: nat, middle: nat, end: nat, key: string, requestHash: string, token: string,
        outcome: Outcome)
        returns (created: Option<string>)
      requires start <= middle <= end && token != ""
      modifies this, store
      ensures key != "" ==>
        var slot, wait, wait' := old(store.SlotOf(key)), middle - start, end - middle;
        var call := CallResult(store.cfg, start, slot, token, requestHash, outcome, wait, wait');
        store.SlotOf(key) == call.slot && created == call.created && leads == old(leads) + call.inserted
      // However it ends, it leaves no lock of its own behind.
      ensures key != "" && Live(old(store.SlotOf(key)).lock, start) != Some(token) ==>
        Live(store.SlotOf(key).lock, end) != Some(token)
      ensures OthersKept(old(store.db), store.db, store.StorageKey(key))
      ensures key == "" ==>
        store.db == old(store.db) && created == AnswerOf(outcome) && leads == old(leads) + Inserted(outcome)
    {
      var begun := store.Begin(start, middle, key, requestHash, token);
      match begun
      case Replay(response) => return Some(response);
      case Conflict => return None;
      case InProgress => return None;
      case ReadFailed => return None;
      case Proceed(granted) =>
        if outcome.MadeUnseen? {
          leads := leads + [outcome.lead];
        }
        if !outcome.Made? {
          store.Abort(end, key, granted);
          return None;
        }
        leads := leads + [outcome.lead];
        store.Complete(end, key, granted, outcome.lead);
        return Some(outcome.lead);
    }
  }
}

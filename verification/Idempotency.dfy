/**
 * The idempotency store (internal/platform/idempotency/store.go).
 *
 * Each idempotency key owns three expiring Redis keys: the binding of the key to a request hash, the
 * stored response, and the lock of the request in progress. Three Lua scripts, each atomic, change them.
 * `Slot` is the value of those three keys; the functions on slots specify the scripts, and `Store` is
 * the store itself, which runs them command by command against the shared Redis map.
 */
module Idempotency {
  import opened Options
  import opened Redis

  const KEY_PREFIX := "lead-scoring:idempotency:create-lead:"
  const DEFAULT_RESULT_TTL: nat := 24 * 60 * 60 * 1000
  const DEFAULT_LOCK_TTL: nat := 2 * 60 * 1000

  datatype Config = Config(resultTTL: nat, lockTTL: nat) {
    /** What the two constants of the source satisfy, and all the proofs need. */
    predicate Valid() {
      0 < lockTTL <= resultTTL
    }
  }

  function Defaults(): (cfg: Config)
    ensures cfg.Valid()
  {
    Config(DEFAULT_RESULT_TTL, DEFAULT_LOCK_TTL)
  }

  datatype Slot = Slot(binding: Option<Entry<string>>, response: Option<Entry<string>>, lock: Option<Entry<string>>)

  const EMPTY_SLOT := Slot(None, None, None)

  /** The integer the begin script returns: -1, 1, 2 or 3. */
  datatype Verdict = Mismatch | Stored | Acquired | Busy

  function BeginVerdict(slot: Slot, now: nat, requestHash: string): Verdict {
    var bound := Live(slot.binding, now);
    if bound.Some? && bound.value != requestHash then Mismatch
    else if Live(slot.response, now).Some? then Stored
    else if Live(slot.lock, now).Some? then Busy
    else Acquired
  }

  function BeginScript(cfg: Config, slot: Slot, now: nat, requestHash: string, token: string): Slot {
    if BeginVerdict(slot, now, requestHash) == Acquired then
      slot.(lock := Some(Entry(token, now + cfg.lockTTL)), binding := Some(Entry(requestHash, now + cfg.resultTTL)))
    else
      slot
  }

  predicate Holds(slot: Slot, now: nat, token: string) {
    Live(slot.lock, now) == Some(token)
  }

  function CompleteScript(cfg: Config, slot: Slot, now: nat, token: string, response: string): Slot {
    if Holds(slot, now, token) then
      slot.(response := Some(Entry(response, now + cfg.resultTTL)), lock := None)
    else
      slot
  }

  function AbortScript(slot: Slot, now: nat, token: string): Slot {
    if Holds(slot, now, token) then slot.(lock := None) else slot
  }

  /** The three Redis keys of one storage key. */
  function BindingKey(base: string): string { base + ":request-hash" }
  function ResponseKey(base: string): string { base + ":response" }
  function LockKey(base: string): string { base + ":lock" }

  function SlotAt(db: Db<string>, base: string): Slot {
    Slot(Lookup(db, BindingKey(base)), Lookup(db, ResponseKey(base)), Lookup(db, LockKey(base)))
  }

  /** Storage keys all have the length of the prefix plus a digest, so no two of them share a Redis key. */
  lemma KeysAreApart(base: string, other: string)
    requires |base| == |other|
    ensures BindingKey(base) != ResponseKey(other) && ResponseKey(base) != LockKey(other)
      && LockKey(base) != BindingKey(other)
    ensures BindingKey(base) == BindingKey(other) ==> base == other
    ensures ResponseKey(base) == ResponseKey(other) ==> base == other
    ensures LockKey(base) == LockKey(other) ==> base == other
  {
    assert |BindingKey(base)| != |ResponseKey(other)|;
    assert |ResponseKey(base)| != |LockKey(other)|;
    assert |LockKey(base)| != |BindingKey(other)|;
    assert base == BindingKey(base)[..|base|] == ResponseKey(base)[..|base|] == LockKey(base)[..|base|];
    assert other == BindingKey(other)[..|base|] == ResponseKey(other)[..|base|] == LockKey(other)[..|base|];
  }

  /** Every other storage key's slot is the same. */
  ghost predicate OthersKept(db: Db<string>, db': Db<string>, base: string) {
    forall other :: |other| == |base| && other != base ==> SlotAt(db', other) == SlotAt(db, other)
  }

  /** Two Redis maps that differ at most in the keys of `base` agree on every other slot. */
  lemma OtherSlotsUnchanged(db: Db<string>, db': Db<string>, base: string)
    requires forall k {:trigger Lookup(db', k)} ::
      k !in {BindingKey(base), ResponseKey(base), LockKey(base)} ==> Lookup(db', k) == Lookup(db, k)
    ensures OthersKept(db, db', base)
  {
    forall other | |other| == |base| && other != base
      ensures SlotAt(db', other) == SlotAt(db, other)
    {
      KeysAreApart(base, other);
      KeysAreApart(other, base);
    }
  }

  /** Taking the lock and binding the key to the request changes these two keys of the slot, and no other slot. */
  lemma LockAndBind(db: Db<string>, cfg: Config, now: nat, base: string, token: string, hash: string)
    ensures var locked := SetPx(db, now, LockKey(base), token, cfg.lockTTL);
      var db' := SetPx(locked, now, BindingKey(base), hash, cfg.resultTTL);
      && SlotAt(db', base) == SlotAt(db, base).(
           lock := Some(Entry(token, now + cfg.lockTTL)), binding := Some(Entry(hash, now + cfg.resultTTL)))
      && OthersKept(db, db', base)
  {
    KeysAreApart(base, base);
    var db' := SetPx(SetPx(db, now, LockKey(base), token, cfg.lockTTL), now, BindingKey(base), hash, cfg.resultTTL);
    OtherSlotsUnchanged(db, db', base);
  }

  /** So do storing the response and releasing the lock. */
  lemma StoreAndRelease(db: Db<string>, cfg: Config, now: nat, base: string, response: string)
    ensures var db' := Del(SetPx(db, now, ResponseKey(base), response, cfg.resultTTL), {LockKey(base)});
      && SlotAt(db', base) == SlotAt(db, base).(response := Some(Entry(response, now + cfg.resultTTL)), lock := None)
      && OthersKept(db, db', base)
  {
    KeysAreApart(base, base);
    var db' := Del(SetPx(db, now, ResponseKey(base), response, cfg.resultTTL), {LockKey(base)});
    OtherSlotsUnchanged(db, db', base);
  }

  datatype Result = Proceed(token: string) | Replay(response: string) | Conflict | InProgress | ReadFailed

  /** The key is live for a request with another body. */
  predicate IsBoundToAnother(slot: Slot, now: nat, requestHash: string) {
    Live(slot.binding, now).Some? && Live(slot.binding, now) != Some(requestHash)
  }

  /** Nothing live stands against the request. */
  predicate IsFree(slot: Slot, now: nat, requestHash: string) {
    && !IsBoundToAnother(slot, now, requestHash)
    && Live(slot.response, now).None? && Live(slot.lock, now).None?
  }

  /** What the read that follows the verdict finds; the response may lapse in between. */
  function Offered(slot: Slot, later: nat): Result {
    match Live(slot.response, later)
    case Some(response) => Replay(response)
    case None => ReadFailed
  }

  class Store {
    var db: Db<string>
    const cfg: Config
    const sha256: string -> string

    constructor (cfg: Config, sha256: string -> string)
      ensures this.cfg == cfg && this.sha256 == sha256 && db == map[]
    {
      this.cfg := cfg;
      this.sha256 := sha256;
      db := map[];
    }

    function StorageKey(key: string): string {
      KEY_PREFIX + sha256(key)
    }

    /** Keys with different digests have different storage keys. */
    lemma StorageKeysDiffer(key: string, other: string)
      requires sha256(key) != sha256(other)
      ensures StorageKey(key) != StorageKey(other)
    {
      assert StorageKey(key)[|KEY_PREFIX|..] == sha256(key) && StorageKey(other)[|KEY_PREFIX|..] == sha256(other);
    }

    /** The slot of an idempotency key. */
    function SlotOf(key: string): Slot
      reads this
    {
      SlotAt(db, StorageKey(key))
    }

    /** Runs the begin script at time `now` and, when it reports a stored response, reads it at `later`. */
    method Begin(now: nat, later: nat, key: string, requestHash: string, token: string) returns (r: Result)
      modifies this
      ensures key == "" ==> db == old(db) && r == Proceed("")
      ensures key != "" ==>
        var before := old(SlotOf(key));
        && SlotOf(key) == BeginScript(cfg, before, now, requestHash, token)
        && r == match BeginVerdict(before, now, requestHash)
                case Mismatch => Conflict
                case Acquired => Proceed(token)
                case Busy => InProgress
                case Stored => Offered(before, later)
      // The same outright: who is refused, replayed or granted, and what that leaves behind.
      ensures r.Conflict? <==> key != "" && IsBoundToAnother(old(SlotOf(key)), now, requestHash)
      ensures r.Replay? || r.ReadFailed? <==>
        key != "" && !IsBoundToAnother(old(SlotOf(key)), now, requestHash) && Live(old(SlotOf(key)).response, now).Some?
      ensures r.Replay? ==> Live(old(SlotOf(key)).response, later) == Some(r.response)
      ensures r.Proceed? <==> key == "" || IsFree(old(SlotOf(key)), now, requestHash)
      ensures r.Proceed? && key != "" ==> r.token == token && SlotOf(key) == Slot(
        Some(Entry(requestHash, now + cfg.resultTTL)), old(SlotOf(key)).response, Some(Entry(token, now + cfg.lockTTL)))
      ensures !r.Proceed? ==> SlotOf(key) == old(SlotOf(key))
      ensures OthersKept(old(db), db, StorageKey(key))
    {
      if key == "" {
        return Proceed("");
      }
      var base := StorageKey(key);
      var storedHash := Get(db, now, BindingKey(base));
      if storedHash.Some? && storedHash.value != requestHash {
        return Conflict;
      }
      if Get(db, now, ResponseKey(base)).Some? {
        var response := Get(db, later, ResponseKey(base));
        if response.None? {
          return ReadFailed;
        }
        return Replay(response.value);
      }
      if Get(db, now, LockKey(base)).Some? {
        return InProgress;
      }
      LockAndBind(db, cfg, now, base, token, requestHash);
      db := SetPx(db, now, LockKey(base), token, cfg.lockTTL);
      db := SetPx(db, now, BindingKey(base), requestHash, cfg.resultTTL);
      return Proceed(token);
    }

    method Complete(now: nat, key: string, token: string, response: string)
      modifies this
      ensures key == "" || token == "" ==> db == old(db)
      ensures key != "" && token != "" ==> SlotOf(key) == CompleteScript(cfg, old(SlotOf(key)), now, token, response)
      ensures key != "" && token != "" && Live(old(SlotOf(key)).lock, now) == Some(token) ==>
        SlotOf(key) == Slot(old(SlotOf(key)).binding, Some(Entry(response, now + cfg.resultTTL)), None)
      ensures key != "" && token != "" && Live(old(SlotOf(key)).lock, now) != Some(token) ==>
        SlotOf(key) == old(SlotOf(key))
      ensures OthersKept(old(db), db, StorageKey(key))
    {
      if key == "" || token == "" {
        return;
      }
      var base := StorageKey(key);
      if Get(db, now, LockKey(base)) != Some(token) {
        return;
      }
      StoreAndRelease(db, cfg, now, base, response);
      db := SetPx(db, now, ResponseKey(base), response, cfg.resultTTL);
      db := Del(db, {LockKey(base)});
    }

    method Abort(now: nat, key: string, token: string)
      modifies this
      ensures key == "" || token == "" ==> db == old(db)
      ensures key != "" && token != "" ==> SlotOf(key) == AbortScript(old(SlotOf(key)), now, token)
      ensures key != "" && token != "" && Live(old(SlotOf(key)).lock, now) == Some(token) ==>
        SlotOf(key) == Slot(old(SlotOf(key)).binding, old(SlotOf(key)).response, None)
      ensures key != "" && token != "" && Live(old(SlotOf(key)).lock, now) != Some(token) ==>
        SlotOf(key) == old(SlotOf(key))
      ensures OthersKept(old(db), db, StorageKey(key))
    {
      if key == "" || token == "" {
        return;
      }
      var base := StorageKey(key);
      KeysAreApart(base, base);
      if Get(db, now, LockKey(base)) == Some(token) {
        db := Del(db, {LockKey(base)});
        OtherSlotsUnchanged(old(db), db, base);
      }
    }
  }
}

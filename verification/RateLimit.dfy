/**
 * The fixed-window rate limiter (internal/platform/auth/middleware.go). Time is in milliseconds; the UTC
 * minute in a counter's key is the number of whole minutes.
 */
module RateLimit {
  import opened Options
  import opened Text

  const MINUTE: nat := 60_000

  datatype Bucket = General | Expensive

  datatype Limits = Limits(general: nat, expensive: nat)

  predicate IsExpensivePath(path: string) {
    HasSuffix(path, "/score") || HasSuffix(path, "/embeddings")
  }

  function BucketOf(path: string): Bucket {
    if IsExpensivePath(path) then Expensive else General
  }

  /** NewMiddleware: limits that are not positive fall back to 120 and 30. */
  function Normalized(perMinute: int, scorePerMinute: int): (limits: Limits)
    ensures 0 < limits.general && 0 < limits.expensive
    ensures if 0 < perMinute then limits.general == perMinute else limits.general == 120
    ensures if 0 < scorePerMinute then limits.expensive == scorePerMinute else limits.expensive == 30
  {
    Limits(if perMinute <= 0 then 120 else perMinute, if scorePerMinute <= 0 then 30 else scorePerMinute)
  }

  function LimitOf(limits: Limits, bucket: Bucket): nat {
    match bucket
    case General => limits.general
    case Expensive => limits.expensive
  }

  /** The limit a request is held to, and so the one of its bucket. */
  function LimitFor(limits: Limits, path: string): (limit: nat)
    ensures limit == LimitOf(limits, BucketOf(path))
  {
    if IsExpensivePath(path) then limits.expensive else limits.general
  }

  /** The part of a counter's key that is not constant. */
  datatype Window = Window(bucket: Bucket, token: string, minute: nat)

  datatype Counter = Counter(count: nat, expiresAt: Option<nat>)

  type Counters = map<Window, Counter>

  /** INCR sees no counter whose TTL ran out. */
  function Count(counters: Counters, now: nat, w: Window): nat {
    if w in counters && (counters[w].expiresAt.Some? ==> now < counters[w].expiresAt.value)
    then counters[w].count
    else 0
  }

  function Incr(counters: Counters, now: nat, w: Window): Counters {
    var count := Count(counters, now, w);
    counters[w := Counter(count + 1, if count == 0 then None else counters[w].expiresAt)]
  }

  function Expire(counters: Counters, now: nat, w: Window, ttl: nat): Counters {
    if w in counters then counters[w := counters[w].(expiresAt := Some(now + ttl))] else counters
  }

  datatype Arrival = Arrival(at: nat, token: string, path: string)

  function WindowOf(a: Arrival): Window {
    Window(BucketOf(a.path), a.token, a.at / MINUTE)
  }

  /** One request: INCR, then EXPIRE for the first of the window, unless Redis fails that command. */
  function Allow(limits: Limits, counters: Counters, a: Arrival, expireFails: bool): (Counters, bool) {
    var w := WindowOf(a);
    var counted := Incr(counters, a.at, w);
    var count := counted[w].count;
    var expiring := if count == 1 && !expireFails then Expire(counted, a.at, w, 2 * MINUTE) else counted;
    (expiring, count <= LimitFor(limits, a.path))
  }

  class Limiter {
    var counters: Counters
    const limits: Limits

    constructor (perMinute: int, scorePerMinute: int)
      ensures counters == map[] && limits == Normalized(perMinute, scorePerMinute)
    {
      counters := map[];
      limits := Normalized(perMinute, scorePerMinute);
    }

    method Admit(a: Arrival, expireFails: bool) returns (allowed: bool)
      modifies this
      ensures (counters, allowed) == Allow(limits, old(counters), a, expireFails)
    {
      var limit := limits.general;
      var bucket := General;
      if IsExpensivePath(a.path) {
        limit := limits.expensive;
        bucket := Expensive;
      }
      var w := Window(bucket, a.token, a.at / MINUTE);
      counters := Incr(counters, a.at, w);
      var count := counters[w].count;
      if count == 1 && !expireFails {
        counters := Expire(counters, a.at, w, 2 * MINUTE);
      }
      return count <= limit;
    }
  }

  // ---------------------------------------------------------------------------------------------
  // The specification: the first `limit` arrivals of a window
  // ---------------------------------------------------------------------------------------------

  /** The answers to a sequence of arrivals; `faults` says which EXPIRE commands fail. */
  function Answers(limits: Limits, arrivals: seq<Arrival>, faults: seq<bool>): (Counters, seq<bool>)
    requires |faults| == |arrivals|
  {
    if arrivals == [] then (map[], [])
    else
      var n := |arrivals| - 1;
      var (counters, answers) := Answers(limits, arrivals[..n], faults[..n]);
      var (counters', allowed) := Allow(limits, counters, arrivals[n], faults[n]);
      (counters', answers + [allowed])
  }

  function InWindow(arrivals: seq<Arrival>, w: Window): nat {
    if arrivals == [] then 0
    else InWindow(arrivals[..|arrivals| - 1], w) + if WindowOf(arrivals[|arrivals| - 1]) == w then 1 else 0
  }

  /** The counter of a window holds its arrivals for as long as the window lasts, whatever EXPIRE does. */
  ghost predicate CountersMatch(counters: Counters, arrivals: seq<Arrival>) {
    forall w ::
      && (w in counters <==> InWindow(arrivals, w) > 0)
      && (w in counters ==>
            && counters[w].count == InWindow(arrivals, w)
            && (counters[w].expiresAt.Some? ==>
                  (w.minute + 2) * MINUTE <= counters[w].expiresAt.value < (w.minute + 3) * MINUTE))
  }

  lemma AllowKeepsCounters(limits: Limits, counters: Counters, arrivals: seq<Arrival>, a: Arrival, fault: bool)
    requires CountersMatch(counters, arrivals)
    ensures CountersMatch(Allow(limits, counters, a, fault).0, arrivals + [a])
    ensures Allow(limits, counters, a, fault).1 == (InWindow(arrivals, WindowOf(a)) < LimitFor(limits, a.path))
  {
    assert (arrivals + [a])[..|arrivals|] == arrivals;
    var w := WindowOf(a);
    assert a.at < (w.minute + 1) * MINUTE && w.minute * MINUTE <= a.at;
    assert Count(counters, a.at, w) == InWindow(arrivals, w);
  }

  lemma {:induction false} CountersAlwaysMatch(limits: Limits, arrivals: seq<Arrival>, faults: seq<bool>)
    requires |faults| == |arrivals|
    ensures CountersMatch(Answers(limits, arrivals, faults).0, arrivals)
    ensures |Answers(limits, arrivals, faults).1| == |arrivals|
  {
    if arrivals != [] {
      var n := |arrivals| - 1;
      CountersAlwaysMatch(limits, arrivals[..n], faults[..n]);
      AllowKeepsCounters(limits, Answers(limits, arrivals[..n], faults[..n]).0, arrivals[..n], arrivals[n], faults[n]);
      assert arrivals[..n] + [arrivals[n]] == arrivals;
    }
  }

  ghost predicate AllExpire(counters: Counters) {
    forall w :: w in counters ==> counters[w].expiresAt.Some?
  }

  lemma AllowExpires(limits: Limits, counters: Counters, a: Arrival)
    requires AllExpire(counters)
    ensures AllExpire(Allow(limits, counters, a, false).0)
  {
    var w := WindowOf(a);
    var counted := Incr(counters, a.at, w);
    assert counted[w].count != 1 ==> counted[w].expiresAt.Some?;
  }

  /** While no EXPIRE fails, every counter expires: within three minutes of its window's start. */
  lemma {:induction false} CountersExpire(limits: Limits, arrivals: seq<Arrival>, faults: seq<bool>)
    requires |faults| == |arrivals| && forall i :: 0 <= i < |faults| ==> !faults[i]
    ensures AllExpire(Answers(limits, arrivals, faults).0)
  {
    if arrivals != [] {
      var n := |arrivals| - 1;
      CountersExpire(limits, arrivals[..n], faults[..n]);
      AllowExpires(limits, Answers(limits, arrivals[..n], faults[..n]).0, arrivals[n]);
    }
  }

  /** Requests share a counter exactly when they have the same token, the same kind of path and the same minute. */
  lemma SameWindowIff(a: Arrival, b: Arrival)
    ensures WindowOf(a) == WindowOf(b) <==>
      && a.token == b.token && a.at / 60_000 == b.at / 60_000
      && (HasSuffix(a.path, "/score") || HasSuffix(a.path, "/embeddings"))
         == (HasSuffix(b.path, "/score") || HasSuffix(b.path, "/embeddings"))
  {
  }

  /** Scoring and embedding are held to the lower limit, whatever comes before in the path. */
  lemma ExpensivePaths(limits: Limits, prefix: string)
    ensures LimitFor(limits, prefix + "/score") == limits.expensive == LimitFor(limits, prefix + "/embeddings")
  {
    SuffixOf(prefix, "/score");
    SuffixOf(prefix, "/embeddings");
  }

  lemma LastAnswer(limits: Limits, arrivals: seq<Arrival>, faults: seq<bool>)
    requires |faults| == |arrivals| && arrivals != []
    ensures var n := |arrivals| - 1;
      Answers(limits, arrivals, faults).1 == Answers(limits, arrivals[..n], faults[..n]).1
        + [InWindow(arrivals[..n], WindowOf(arrivals[n])) < LimitFor(limits, arrivals[n].path)]
  {
    var n := |arrivals| - 1;
    CountersAlwaysMatch(limits, arrivals[..n], faults[..n]);
    AllowKeepsCounters(limits, Answers(limits, arrivals[..n], faults[..n]).0, arrivals[..n], arrivals[n], faults[n]);
  }

  /** An arrival is admitted exactly when fewer than the limit came before it in its window. */
  predicate FirstAreAdmitted(limits: Limits, arrivals: seq<Arrival>, answers: seq<bool>) {
    && |answers| == |arrivals|
    && forall i :: 0 <= i < |arrivals| ==>
         (answers[i] <==> InWindow(arrivals[..i], WindowOf(arrivals[i])) < LimitFor(limits, arrivals[i].path))
  }

  lemma OneMoreIsFirst(limits: Limits, arrivals: seq<Arrival>, answers: seq<bool>, a: Arrival)
    requires FirstAreAdmitted(limits, arrivals, answers)
    ensures var answer := InWindow(arrivals, WindowOf(a)) < LimitFor(limits, a.path);
      FirstAreAdmitted(limits, arrivals + [a], answers + [answer])
  {
    var next := arrivals + [a];
    assert next[..|arrivals|] == arrivals;
    assert forall i :: 0 <= i < |arrivals| ==> next[..i] == arrivals[..i];
  }

  /**
   * The limiter admits exactly the first `limit` arrivals of each bucket, token and minute: no counter is
   * dropped within its minute, no bucket touches another, and it does not matter whether EXPIRE succeeds.
   */
  lemma {:induction false} AdmitsTheFirst(limits: Limits, arrivals: seq<Arrival>, faults: seq<bool>)
    requires |faults| == |arrivals|
    ensures FirstAreAdmitted(limits, arrivals, Answers(limits, arrivals, faults).1)
  {
    if arrivals != [] {
      var n := |arrivals| - 1;
      AdmitsTheFirst(limits, arrivals[..n], faults[..n]);
      LastAnswer(limits, arrivals, faults);
      OneMoreIsFirst(limits, arrivals[..n], Answers(limits, arrivals[..n], faults[..n]).1, arrivals[n]);
      assert arrivals[..n] + [arrivals[n]] == arrivals;
    }
  }

  // ---------------------------------------------------------------------------------------------
  // How many are admitted, per window and over any span of time
  // ---------------------------------------------------------------------------------------------

  function One(b: bool): nat {
    if b then 1 else 0
  }

  /** The admitted arrivals of a window. */
  function Admitted(arrivals: seq<Arrival>, answers: seq<bool>, w: Window): nat
    requires |answers| == |arrivals|
  {
    if arrivals == [] then 0
    else
      var n := |arrivals| - 1;
      Admitted(arrivals[..n], answers[..n], w) + One(answers[n] && WindowOf(arrivals[n]) == w)
  }

  predicate InMinutes(a: Arrival, bucket: Bucket, token: string, first: nat, last: nat) {
    BucketOf(a.path) == bucket && a.token == token && first <= a.at / MINUTE < last
  }

  function AdmittedInMinutes(arrivals: seq<Arrival>, answers: seq<bool>, bucket: Bucket, token: string, first: nat,
      last: nat): nat
    requires |answers| == |arrivals|
  {
    if arrivals == [] then 0
    else
      var n := |arrivals| - 1;
      AdmittedInMinutes(arrivals[..n], answers[..n], bucket, token, first, last)
        + One(answers[n] && InMinutes(arrivals[n], bucket, token, first, last))
  }

  predicate InSpan(a: Arrival, bucket: Bucket, token: string, from: nat, to: nat) {
    BucketOf(a.path) == bucket && a.token == token && from <= a.at < to
  }

  function AdmittedInSpan(arrivals: seq<Arrival>, answers: seq<bool>, bucket: Bucket, token: string, from: nat,
      to: nat): nat
    requires |answers| == |arrivals|
  {
    if arrivals == [] then 0
    else
      var n := |arrivals| - 1;
      AdmittedInSpan(arrivals[..n], answers[..n], bucket, token, from, to)
        + One(answers[n] && InSpan(arrivals[n], bucket, token, from, to))
  }

  /** Of the arrivals of a window, as many as the limit allows are admitted. */
  lemma {:induction false} WindowAdmitsUpToLimit(limits: Limits, arrivals: seq<Arrival>, faults: seq<bool>, w: Window)
    requires |faults| == |arrivals|
    ensures var answers := Answers(limits, arrivals, faults).1;
      && |answers| == |arrivals|
      && Admitted(arrivals, answers, w)
         == (if InWindow(arrivals, w) < LimitOf(limits, w.bucket)
             then InWindow(arrivals, w)
             else LimitOf(limits, w.bucket))
  {
    if arrivals != [] {
      var n := |arrivals| - 1;
      WindowAdmitsUpToLimit(limits, arrivals[..n], faults[..n], w);
      LastAnswer(limits, arrivals, faults);
    }
  }

  lemma {:induction false} MinutesSplit(arrivals: seq<Arrival>, answers: seq<bool>, bucket: Bucket, token: string,
      first: nat, last: nat)
    requires |answers| == |arrivals| && first <= last
    ensures AdmittedInMinutes(arrivals, answers, bucket, token, first, last + 1)
            == AdmittedInMinutes(arrivals, answers, bucket, token, first, last)
               + Admitted(arrivals, answers, Window(bucket, token, last))
  {
    if arrivals != [] {
      var n := |arrivals| - 1;
      MinutesSplit(arrivals[..n], answers[..n], bucket, token, first, last);
    }
  }

  lemma {:induction false} NoMinutes(arrivals: seq<Arrival>, answers: seq<bool>, bucket: Bucket, token: string,
      first: nat)
    requires |answers| == |arrivals|
    ensures AdmittedInMinutes(arrivals, answers, bucket, token, first, first) == 0
  {
    if arrivals != [] {
      var n := |arrivals| - 1;
      NoMinutes(arrivals[..n], answers[..n], bucket, token, first);
    }
  }

  lemma {:induction false} MinutesBound(limit: nat, arrivals: seq<Arrival>, answers: seq<bool>, bucket: Bucket,
      token: string, first: nat, last: nat)
    requires |answers| == |arrivals| && first <= last
    requires forall minute :: Admitted(arrivals, answers, Window(bucket, token, minute)) <= limit
    ensures AdmittedInMinutes(arrivals, answers, bucket, token, first, last) <= limit * (last - first)
    decreases last
  {
    if first == last {
      NoMinutes(arrivals, answers, bucket, token, first);
    } else {
      MinutesBound(limit, arrivals, answers, bucket, token, first, last - 1);
      MinutesSplit(arrivals, answers, bucket, token, first, last - 1);
      OneMore(limit, last - 1 - first);
    }
  }

  lemma OneMore(limit: nat, n: nat)
    ensures limit * (n + 1) == limit * n + limit
  {
  }

  lemma TimesAtMost(limit: nat, m: nat, n: nat)
    requires m <= n
    ensures limit * m <= limit * n
  {
  }

  /** A span touches at most one minute more than it has minutes begun. */
  lemma MinutesTouched(from: nat, length: nat)
    requires 0 < length
    ensures (from + length - 1) / MINUTE + 1 - from / MINUTE <= (length + MINUTE - 1) / MINUTE + 1
  {
  }

  lemma {:induction false} SpanInMinutes(arrivals: seq<Arrival>, answers: seq<bool>, bucket: Bucket, token: string,
      from: nat, to: nat)
    requires |answers| == |arrivals| && from < to
    ensures AdmittedInSpan(arrivals, answers, bucket, token, from, to)
            <= AdmittedInMinutes(arrivals, answers, bucket, token, from / MINUTE, (to - 1) / MINUTE + 1)
  {
    if arrivals != [] {
      var n := |arrivals| - 1;
      SpanInMinutes(arrivals[..n], answers[..n], bucket, token, from, to);
    }
  }

  lemma {:induction false} EmptySpan(arrivals: seq<Arrival>, answers: seq<bool>, bucket: Bucket, token: string,
      from: nat)
    requires |answers| == |arrivals|
    ensures AdmittedInSpan(arrivals, answers, bucket, token, from, from) == 0
  {
    if arrivals != [] {
      var n := |arrivals| - 1;
      EmptySpan(arrivals[..n], answers[..n], bucket, token, from);
    }
  }

  /**
   * Over any half-open span a bucket admits at most the limit for each minute begun, and once more.
   */
  lemma SpanBound(limits: Limits, arrivals: seq<Arrival>, faults: seq<bool>, bucket: Bucket, token: string, from: nat,
      length: nat)
    requires |faults| == |arrivals|
    ensures var answers := Answers(limits, arrivals, faults).1;
      && |answers| == |arrivals|
      && AdmittedInSpan(arrivals, answers, bucket, token, from, from + length)
         <= LimitOf(limits, bucket) * ((length + MINUTE - 1) / MINUTE + 1)
  {
    WindowAdmitsUpToLimit(limits, arrivals, faults, Window(bucket, token, 0));
    var answers := Answers(limits, arrivals, faults).1;
    var limit := LimitOf(limits, bucket);
    if length == 0 {
      EmptySpan(arrivals, answers, bucket, token, from);
    } else {
      var first, last := from / MINUTE, (from + length - 1) / MINUTE + 1;
      forall minute
        ensures Admitted(arrivals, answers, Window(bucket, token, minute)) <= limit
      {
        WindowAdmitsUpToLimit(limits, arrivals, faults, Window(bucket, token, minute));
      }
      SpanInMinutes(arrivals, answers, bucket, token, from, from + length);
      MinutesBound(limit, arrivals, answers, bucket, token, first, last);
      MinutesTouched(from, length);
      TimesAtMost(limit, last - first, (length + MINUTE - 1) / MINUTE + 1);
    }
  }

  // The bound is met: a full window of arrivals just before a minute turns, and another just after.

  function Repeat(a: Arrival, n: nat): (arrivals: seq<Arrival>)
    ensures |arrivals| == n && forall i :: 0 <= i < n ==> arrivals[i] == a
  {
    seq(n, _ => a)
  }

  lemma {:induction false} AllAdmitted(arrivals: seq<Arrival>, answers: seq<bool>, bucket: Bucket, token: string,
      from: nat, to: nat)
    requires |answers| == |arrivals|
    requires forall i :: 0 <= i < |arrivals| ==> answers[i] && InSpan(arrivals[i], bucket, token, from, to)
    ensures AdmittedInSpan(arrivals, answers, bucket, token, from, to) == |arrivals|
  {
    if arrivals != [] {
      var n := |arrivals| - 1;
      AllAdmitted(arrivals[..n], answers[..n], bucket, token, from, to);
    }
  }

  /** Earlier arrivals of the same window are at most those at the same moment. */
  lemma {:induction false} FewBefore(arrivals: seq<Arrival>, w: Window, start: nat)
    requires start <= |arrivals| && forall i :: 0 <= i < start ==> WindowOf(arrivals[i]) != w
    ensures InWindow(arrivals, w) <= |arrivals| - start
  {
    if |arrivals| > start {
      FewBefore(arrivals[..|arrivals| - 1], w, start);
    } else if arrivals != [] {
      FewBefore(arrivals[..|arrivals| - 1], w, start - 1);
    }
  }

  /** Two runs of arrivals, each no longer than the limit and in a window of its own, are all admitted. */
  lemma TwoRunsAreAdmitted(limits: Limits, arrivals: seq<Arrival>, answers: seq<bool>, limit: nat, first: Arrival,
      second: Arrival)
    requires FirstAreAdmitted(limits, arrivals, answers) && |arrivals| == 2 * limit
      && WindowOf(first) != WindowOf(second)
    requires LimitFor(limits, first.path) == limit && LimitFor(limits, second.path) == limit
    requires forall i :: 0 <= i < |arrivals| ==> arrivals[i] == if i < limit then first else second
    ensures forall i :: 0 <= i < |arrivals| ==> answers[i]
  {
    forall i | 0 <= i < |arrivals|
      ensures answers[i]
    {
      var start := if i < limit then 0 else limit;
      assert forall j :: 0 <= j < start ==> arrivals[..i][j] == first;
      FewBefore(arrivals[..i], WindowOf(arrivals[i]), start);
    }
  }

  lemma TurnOfMinute(minute: nat)
    requires 0 < minute
    ensures 0 < minute * MINUTE && (minute * MINUTE - 1) / MINUTE == minute - 1 && minute * MINUTE / MINUTE == minute
  {
  }

  lemma BurstIsAdmitted(limits: Limits, arrivals: seq<Arrival>, faults: seq<bool>, limit: nat, first: Arrival,
      second: Arrival)
    requires |faults| == |arrivals| == 2 * limit && second == first.(at := first.at + 1)
      && LimitFor(limits, first.path) == limit
    requires WindowOf(first) != WindowOf(second)
    requires forall i :: 0 <= i < |arrivals| ==> arrivals[i] == if i < limit then first else second
    ensures var answers := Answers(limits, arrivals, faults).1;
      |answers| == |arrivals|
      && AdmittedInSpan(arrivals, answers, BucketOf(first.path), first.token, first.at, first.at + 2) == 2 * limit
  {
    AdmitsTheFirst(limits, arrivals, faults);
    var answers := Answers(limits, arrivals, faults).1;
    TwoRunsAreAdmitted(limits, arrivals, answers, limit, first, second);
    AllAdmitted(arrivals, answers, BucketOf(first.path), first.token, first.at, first.at + 2);
  }

  /** Twice the limit is admitted in the two milliseconds around any turn of the minute: the bound for such a span. */
  lemma BurstMeetsBound(limits: Limits, token: string, path: string, minute: nat, faults: seq<bool>)
    requires 0 < minute && |faults| == 2 * LimitFor(limits, path)
    ensures var before, limit := minute * MINUTE - 1, LimitFor(limits, path);
      var arrivals := Repeat(Arrival(before, token, path), limit) + Repeat(Arrival(before + 1, token, path), limit);
      var answers := Answers(limits, arrivals, faults).1;
      && |answers| == |arrivals|
      && AdmittedInSpan(arrivals, answers, BucketOf(path), token, before, before + 2) == 2 * limit
  {
    var before, limit := minute * MINUTE - 1, LimitFor(limits, path);
    TurnOfMinute(minute);
    var first, second := Arrival(before, token, path), Arrival(before + 1, token, path);
    BurstIsAdmitted(limits, Repeat(first, limit) + Repeat(second, limit), faults, limit, first, second);
  }
}

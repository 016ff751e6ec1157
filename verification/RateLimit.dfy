/**
 * The fixed-window rate limiter (internal/ratelimit/limiter.go): INCR and a refreshed EXPIRE on keys that name
 * a subject and a time bucket. Times are milliseconds on one clock; a formatted UTC bucket is its number.
 */
module RateLimit {
  import opened Prelude

  type Pos = x: int | 0 < x witness 1

  const HOUR: Pos := 3_600_000
  const DAY: Pos := 24 * HOUR

  datatype Key = Key(scope: string, subject: string, window: Pos, bucket: nat)

  /** A counter that was incremented but never given an expiry lives on. */
  datatype Counter = Counter(count: nat, expires: Option<nat>)

  type Store = map<Key, Counter>

  /** A pipeline error lets the call through; Redis may have run none, the first or both of its two commands. */
  datatype RedisFault = NoFault | Uncounted | Unexpired | CountedUnseen

  /** One call of `Allow`: `at` is the clock reading that builds the key, `sent` the time Redis runs the pipeline. */
  datatype Call = Call(at: nat, sent: nat, scope: string, subject: string, window: Pos, limit: int, fault: RedisFault)

  function KeyAt(scope: string, subject: string, window: Pos, at: nat): Key {
    Key(scope, subject, window, at / window)
  }

  function KeyOf(c: Call): Key {
    KeyAt(c.scope, c.subject, c.window, c.at)
  }

  predicate Live(store: Store, key: Key, now: nat) {
    key in store && (store[key].expires.None? || now < store[key].expires.value)
  }

  /** INCR: a key that is missing or expired starts over. */
  function Incr(store: Store, key: Key, now: nat): nat {
    if Live(store, key, now) then store[key].count + 1 else 1
  }

  /** The counter after the pipeline, or after its INCR alone. */
  function Ran(store: Store, c: Call): Counter {
    var key := KeyOf(c);
    Counter(Incr(store, key, c.sent),
            if !c.fault.Unexpired? then Some(c.sent + c.window)
            else if Live(store, key, c.sent) then store[key].expires
            else None)
  }

  function Allow(store: Store, c: Call): (Store, bool) {
    if c.limit <= 0 || c.fault.Uncounted? then (store, true)
    else (store[KeyOf(c) := Ran(store, c)], !c.fault.NoFault? || Incr(store, KeyOf(c), c.sent) <= c.limit)
  }

  /** The counters after these calls, in the order in which Redis ran them. */
  function After(calls: seq<Call>): Store {
    if calls == [] then map[] else Allow(After(calls[..|calls| - 1]), calls[|calls| - 1]).0
  }

  /** The answer to the last call. */
  function Admits(calls: seq<Call>): bool
    requires calls != []
  {
    Allow(After(calls[..|calls| - 1]), calls[|calls| - 1]).1
  }

  /** The call has a limit in force and its pipeline fails. */
  predicate Fails(c: Call) {
    c.limit > 0 && !c.fault.NoFault?
  }

  /** How many calls used this key. */
  function Made(calls: seq<Call>, key: Key): nat {
    if calls == [] then 0
    else Made(calls[..|calls| - 1], key) + if KeyOf(calls[|calls| - 1]) == key then 1 else 0
  }

  /** How many of them Redis counted. */
  function Counted(calls: seq<Call>, key: Key): nat {
    if calls == [] then 0
    else
      var last := calls[|calls| - 1];
      Counted(calls[..|calls| - 1], key) +
      if KeyOf(last) == key && last.limit > 0 && !last.fault.Uncounted? then 1 else 0
  }

  /** How many failed at Redis. */
  function Faulted(calls: seq<Call>, key: Key): nat {
    if calls == [] then 0
    else
      var last := calls[|calls| - 1];
      Faulted(calls[..|calls| - 1], key) + if KeyOf(last) == key && Fails(last) then 1 else 0
  }

  /** How many were let through. */
  function Admitted(calls: seq<Call>, key: Key): nat {
    if calls == [] then 0
    else
      Admitted(calls[..|calls| - 1], key) + if KeyOf(calls[|calls| - 1]) == key && Admits(calls) then 1 else 0
  }

  ghost predicate LimitIs(calls: seq<Call>, key: Key, limit: int) {
    forall i :: 0 <= i < |calls| && KeyOf(calls[i]) == key ==> calls[i].limit == limit
  }

  ghost predicate FaultFree(calls: seq<Call>) {
    forall i :: 0 <= i < |calls| ==> calls[i].fault.NoFault?
  }

  /** Redis runs the pipelines in the order of time. */
  ghost predicate InOrder(calls: seq<Call>) {
    forall i, j :: 0 <= i < j < |calls| ==> calls[i].sent <= calls[j].sent
  }

  ghost predicate NotAfter(calls: seq<Call>, time: nat) {
    forall i :: 0 <= i < |calls| ==> calls[i].sent <= time
  }

  /** The pipeline runs in the bucket that the key names. */
  predicate InTime(c: Call) {
    c.sent / c.window == c.at / c.window
  }

  ghost predicate Prompt(calls: seq<Call>) {
    forall i :: 0 <= i < |calls| ==> InTime(calls[i])
  }

  /** The counter is exact: the key cannot expire before its bucket ends. */
  ghost predicate Exact(store: Store, key: Key, n: nat) {
    if n == 0 then key !in store
    else
      && key in store && store[key].count == n
      && (store[key].expires.Some? ==> (key.bucket + 1) * key.window <= store[key].expires.value)
  }

  lemma InBucket(c: Call)
    requires InTime(c)
    ensures KeyOf(c).bucket * c.window <= c.sent < (KeyOf(c).bucket + 1) * c.window
  {
  }

  /** After any prompt calls by any subjects, whatever failed, a bucket's counter is the number counted in it. */
  lemma {:induction false} CounterExact(calls: seq<Call>, key: Key)
    requires Prompt(calls)
    ensures Exact(After(calls), key, Counted(calls, key))
  {
    if calls != [] {
      CounterExact(calls[..|calls| - 1], key);
      InBucket(calls[|calls| - 1]);
    }
  }

  lemma Snoc(calls: seq<Call>, c: Call)
    ensures (calls + [c])[..|calls + [c]| - 1] == calls
  {
  }

  /** A call is admitted exactly if it is unlimited, fails at Redis, or finds room in its bucket. */
  lemma LastAdmitted(calls: seq<Call>, c: Call)
    requires Prompt(calls) && InTime(c)
    ensures Admits(calls + [c]) <==> c.limit <= 0 || Fails(c) || Counted(calls, KeyOf(c)) < c.limit
  {
    Snoc(calls, c);
    CounterExact(calls, KeyOf(c));
    InBucket(c);
  }

  /**
   * So a bucket admits the smaller of its counted calls and its limit, together with calls that failed: all that were
   * not counted, and at most all that failed. An unlimited bucket admits every call.
   */
  lemma {:induction false} BucketAdmits(calls: seq<Call>, key: Key, limit: int)
    requires Prompt(calls) && LimitIs(calls, key, limit)
    ensures limit > 0 ==> Admitted(calls, key) <= Min(Counted(calls, key), limit) + Faulted(calls, key)
    ensures limit > 0 ==>
              Min(Counted(calls, key), limit) + Made(calls, key) - Counted(calls, key) <= Admitted(calls, key)
    ensures Counted(calls, key) <= Made(calls, key)
    ensures limit <= 0 ==> Admitted(calls, key) == Made(calls, key)
  {
    if calls != [] {
      var before, last := calls[..|calls| - 1], calls[|calls| - 1];
      BucketAdmits(before, key, limit);
      CounterExact(before, key);
      InBucket(last);
    }
  }

  /** A limit that is not positive is no limit. */
  function Cap(n: nat, limit: int): nat {
    if limit <= 0 then n else Min(n, limit)
  }

  lemma {:induction false} FaultFreeCounts(calls: seq<Call>, key: Key, limit: int)
    requires FaultFree(calls) && LimitIs(calls, key, limit)
    ensures Faulted(calls, key) == 0 && Counted(calls, key) == if limit > 0 then Made(calls, key) else 0
  {
    if calls != [] { FaultFreeCounts(calls[..|calls| - 1], key, limit); }
  }

  /** For any limit a bucket admits its calls capped by it, and at most those that failed besides. */
  lemma BucketWithin(calls: seq<Call>, key: Key, limit: int)
    requires Prompt(calls) && LimitIs(calls, key, limit)
    ensures Cap(Made(calls, key), limit) <= Admitted(calls, key) <= Cap(Made(calls, key), limit) + Faulted(calls, key)
    ensures FaultFree(calls) ==> Faulted(calls, key) == 0
  {
    BucketAdmits(calls, key, limit);
    if FaultFree(calls) { FaultFreeCounts(calls, key, limit); }
  }

  /** Calls of one subject let through at times in [from, to), and those of them that failed at Redis. */
  function AdmittedIn(calls: seq<Call>, scope: string, subject: string, window: Pos, from: nat, to: nat): nat {
    if calls == [] then 0
    else
      var last := calls[|calls| - 1];
      AdmittedIn(calls[..|calls| - 1], scope, subject, window, from, to) +
      if KeyOf(last) == KeyAt(scope, subject, window, last.at) && from <= last.at < to && Admits(calls) then 1 else 0
  }

  function FaultedIn(calls: seq<Call>, scope: string, subject: string, window: Pos, from: nat, to: nat): nat {
    if calls == [] then 0
    else
      var last := calls[|calls| - 1];
      FaultedIn(calls[..|calls| - 1], scope, subject, window, from, to) +
      if KeyOf(last) == KeyAt(scope, subject, window, last.at) && from <= last.at < to && Fails(last) then 1 else 0
  }

  /** How many were let through by the counter, not by a failure; and the sum of that over n buckets. */
  function Granted(calls: seq<Call>, key: Key): nat {
    if calls == [] then 0
    else
      var last := calls[|calls| - 1];
      Granted(calls[..|calls| - 1], key) + if KeyOf(last) == key && Admits(calls) && !Fails(last) then 1 else 0
  }

  function SumGranted(calls: seq<Call>, scope: string, subject: string, window: Pos, bucket: nat, n: nat): nat {
    if n == 0 then 0
    else SumGranted(calls, scope, subject, window, bucket, n - 1)
         + Granted(calls, Key(scope, subject, window, bucket + n - 1))
  }

  lemma {:induction false} AdmittedSplits(calls: seq<Call>, key: Key)
    ensures Admitted(calls, key) == Granted(calls, key) + Faulted(calls, key)
  {
    if calls != [] { AdmittedSplits(calls[..|calls| - 1], key); }
  }

  /** The counter grants no more than the limit, whatever fails. */
  lemma {:induction false} GrantedWithin(calls: seq<Call>, key: Key, limit: Pos)
    requires Prompt(calls) && LimitIs(calls, key, limit)
    ensures Granted(calls, key) <= Min(Counted(calls, key), limit)
  {
    AdmittedSplits(calls, key);
    BucketAdmits(calls, key, limit);
  }

  lemma {:induction false} SumExtends(calls: seq<Call>, scope: string, subject: string, window: Pos,
                                      bucket: nat, n: nat)
    requires calls != []
    ensures var last := calls[|calls| - 1];
            SumGranted(calls, scope, subject, window, bucket, n) ==
            SumGranted(calls[..|calls| - 1], scope, subject, window, bucket, n) +
            if KeyOf(last) == KeyAt(scope, subject, window, last.at) && bucket <= last.at / window < bucket + n
               && Admits(calls) && !Fails(last) then 1 else 0
  {
    if n > 0 { SumExtends(calls, scope, subject, window, bucket, n - 1); }
  }

  lemma {:induction false} IntervalWithinBuckets(calls: seq<Call>, scope: string, subject: string, window: Pos,
                                                 from: nat, to: nat, bucket: nat, n: nat)
    requires bucket * window <= from && to <= (bucket + n) * window
    ensures AdmittedIn(calls, scope, subject, window, from, to) <=
            SumGranted(calls, scope, subject, window, bucket, n) + FaultedIn(calls, scope, subject, window, from, to)
  {
    if calls != [] {
      var last := calls[|calls| - 1];
      IntervalWithinBuckets(calls[..|calls| - 1], scope, subject, window, from, to, bucket, n);
      SumExtends(calls, scope, subject, window, bucket, n);
      if from <= last.at < to { BucketBetween(last.at, window, bucket, n); }
    }
  }

  lemma MulNext(n: nat, w: int)
    ensures (n + 1) * w == n * w + w
  {
  }

  lemma MulCancel(a: int, b: int, w: Pos)
    requires a * w < b * w
    ensures a < b
  {
    assert (b - a) * w > 0;
  }

  lemma BucketBetween(at: nat, window: Pos, bucket: nat, n: nat)
    requires bucket * window <= at < (bucket + n) * window
    ensures bucket <= at / window < bucket + n
  {
    var b := at / window;
    assert b * window <= at < (b + 1) * window;
    MulCancel(bucket, b + 1, window);
    MulCancel(b, bucket + n, window);
  }

  ghost predicate SubjectLimit(calls: seq<Call>, scope: string, subject: string, window: Pos, limit: Pos) {
    forall b: nat :: LimitIs(calls, Key(scope, subject, window, b), limit)
  }

  lemma {:induction false} SumBounded(calls: seq<Call>, scope: string, subject: string, window: Pos, limit: Pos,
                                      bucket: nat, n: nat)
    requires Prompt(calls) && SubjectLimit(calls, scope, subject, window, limit)
    ensures SumGranted(calls, scope, subject, window, bucket, n) <= n * limit
  {
    if n > 0 {
      SumBounded(calls, scope, subject, window, limit, bucket, n - 1);
      MulNext(n - 1, limit);
      assert Granted(calls, Key(scope, subject, window, bucket + n - 1)) <= limit by {
        GrantedWithin(calls, Key(scope, subject, window, bucket + n - 1), limit);
      }
    }
  }

  /** The most buckets that any interval of this length can meet. */
  function BucketsMet(length: Pos, window: Pos): nat {
    (length + window - 2) / window + 1
  }

  lemma IntervalMeets(from: nat, length: Pos, window: Pos)
    ensures from + length <= (from / window + BucketsMet(length, window)) * window
  {
    var b, m := from / window, (length + window - 2) / window;
    assert from <= b * window + window - 1;
    assert length - 1 <= m * window by {
      assert length + window - 2 == m * window + (length + window - 2) % window;
    }
    assert (b + m + 1) * window == b * window + m * window + window;
  }

  /**
   * Sliding-window bound: what any interval of a given length can admit, whatever the other subjects do; to that
   * come the interval's calls that fail at Redis.
   */
  lemma SlidingWindowBound(calls: seq<Call>, scope: string, subject: string, window: Pos, limit: Pos,
                           from: nat, length: Pos)
    requires Prompt(calls) && SubjectLimit(calls, scope, subject, window, limit)
    ensures AdmittedIn(calls, scope, subject, window, from, from + length) <=
            BucketsMet(length, window) * limit + FaultedIn(calls, scope, subject, window, from, from + length)
  {
    IntervalMeets(from, length, window);
    IntervalWithinBuckets(calls, scope, subject, window, from, from + length,
                          from / window, BucketsMet(length, window));
    SumBounded(calls, scope, subject, window, limit, from / window, BucketsMet(length, window));
  }

  /** A burst that meets no live counter is admitted in full while it stays within the limit. */
  lemma {:induction false} Burst(calls: seq<Call>, c: Call, n: nat, from: nat, to: nat) returns (calls': seq<Call>)
    requires n <= c.limit && from <= c.at < to && c.fault.NoFault? && !Live(After(calls), KeyOf(c), c.sent)
    ensures n > 0 ==> KeyOf(c) in After(calls') && After(calls')[KeyOf(c)] == Counter(n, Some(c.sent + c.window))
    ensures AdmittedIn(calls', c.scope, c.subject, c.window, from, to) ==
            AdmittedIn(calls, c.scope, c.subject, c.window, from, to) + n
    ensures Admitted(calls', KeyOf(c)) == Admitted(calls, KeyOf(c)) + n
    ensures forall k :: Counted(calls', k) == Counted(calls, k) + if k == KeyOf(c) then n else 0
    ensures calls <= calls' && |calls'| == |calls| + n && forall k :: |calls| <= k < |calls'| ==> calls'[k] == c
  {
    if n == 0 {
      calls' := calls;
    } else {
      var before := Burst(calls, c, n - 1, from, to);
      if n == 1 { assert before == calls; }
      calls' := before + [c];
      Snoc(before, c);
    }
  }

  /** A call with which a burst in this bucket can be made. */
  ghost predicate BurstCall(c: Call, key: Key, limit: Pos, to: nat) {
    && KeyOf(c) == key && InTime(c) && c.limit == limit && c.fault.NoFault?
    && key.window - 1 <= c.at < to && c.at == c.sent
  }

  /** n full bursts have been made, one in each of the first buckets. */
  ghost predicate BurstsMade(calls: seq<Call>, scope: string, subject: string, window: Pos, limit: Pos,
                             to: nat, n: nat)
  {
    && AdmittedIn(calls, scope, subject, window, window - 1, to) == n * limit
    && (forall b: nat :: n <= b ==> Counted(calls, Key(scope, subject, window, b)) == 0)
    && SubjectLimit(calls, scope, subject, window, limit)
    && Prompt(calls) && FaultFree(calls) && InOrder(calls)
  }

  lemma NextBurst(calls: seq<Call>, c: Call, limit: Pos, to: nat, n: nat) returns (calls': seq<Call>)
    requires BurstsMade(calls, c.scope, c.subject, c.window, limit, to, n) && NotAfter(calls, c.sent)
    requires BurstCall(c, Key(c.scope, c.subject, c.window, n), limit, to)
    ensures BurstsMade(calls', c.scope, c.subject, c.window, limit, to, n + 1) && NotAfter(calls', c.sent)
  {
    CounterExact(calls, KeyOf(c));
    calls' := Burst(calls, c, limit, c.window - 1, to);
    RepeatsKeep(calls, calls', c, limit);
    RepeatsOrdered(calls, calls', c);
    MulNext(n, limit);
  }

  /** One burst in each of the first buckets. */
  lemma {:induction false} Bursts(scope: string, subject: string, window: Pos, limit: Pos, cs: seq<Call>, to: nat)
    returns (calls: seq<Call>)
    requires forall k :: 0 <= k < |cs| ==> BurstCall(cs[k], Key(scope, subject, window, k), limit, to)
    requires InOrder(cs)
    ensures BurstsMade(calls, scope, subject, window, limit, to, |cs|)
    ensures if cs == [] then calls == [] else NotAfter(calls, cs[|cs| - 1].sent)
  {
    if cs == [] {
      calls := [];
    } else {
      var n := |cs| - 1;
      var before := Bursts(scope, subject, window, limit, cs[..n], to);
      assert BurstCall(cs[n], Key(scope, subject, window, n), limit, to);
      if n > 0 { assert cs[n - 1].sent <= cs[n].sent; }
      calls := NextBurst(before, cs[n], limit, to, n);
    }
  }

  /** Repeating one more call of the subject keeps the calls prompt and under their limit. */
  lemma RepeatsKeep(calls: seq<Call>, calls': seq<Call>, c: Call, limit: Pos)
    requires Prompt(calls) && SubjectLimit(calls, c.scope, c.subject, c.window, limit) && InTime(c) && c.limit == limit
    requires calls <= calls' && forall k :: |calls| <= k < |calls'| ==> calls'[k] == c
    ensures Prompt(calls') && SubjectLimit(calls', c.scope, c.subject, c.window, limit)
  {
  }

  /** And in order, if it comes last. */
  lemma RepeatsOrdered(calls: seq<Call>, calls': seq<Call>, c: Call)
    requires InOrder(calls) && NotAfter(calls, c.sent) && FaultFree(calls) && c.fault.NoFault?
    requires calls <= calls' && forall k :: |calls| <= k < |calls'| ==> calls'[k] == c
    ensures InOrder(calls') && NotAfter(calls', c.sent) && FaultFree(calls')
  {
  }

  /** As close together as they can be: the end of the first bucket and the start of each that follows. */
  function BurstTime(window: Pos, k: nat): nat {
    if k == 0 then window - 1 else k * window
  }

  lemma BurstFits(length: Pos, window: Pos, k: nat)
    requires k < BucketsMet(length, window)
    ensures BurstTime(window, k) / window == k && window - 1 <= BurstTime(window, k) < window - 1 + length
  {
    var total := length + window - 2;
    assert total == window * (total / window) + total % window;
    assert k * window <= (total / window) * window;
    assert (k + 1) * window == k * window + window;
    BurstTimesGrow(window, 0, k);
    BucketBetween(BurstTime(window, k), window, k, 1);
  }

  lemma BurstTimesGrow(window: Pos, j: nat, k: nat)
    requires j <= k
    ensures BurstTime(window, j) <= BurstTime(window, k)
  {
    assert j * window <= k * window;
    if k > 0 { assert window <= k * window; }
  }

  /** The bound is attained for every window, limit and interval length; for one window it is twice the limit. */
  lemma SlidingWindowAttained(scope: string, subject: string, window: Pos, limit: Pos, length: Pos)
    returns (calls: seq<Call>)
    ensures SubjectLimit(calls, scope, subject, window, limit) && Prompt(calls) && InOrder(calls) && FaultFree(calls)
    ensures AdmittedIn(calls, scope, subject, window, window - 1, window - 1 + length) ==
            BucketsMet(length, window) * limit
    ensures length == window > 1 ==> BucketsMet(length, window) == 2
  {
    var cs := seq(BucketsMet(length, window), k requires 0 <= k =>
                    Call(BurstTime(window, k), BurstTime(window, k), scope, subject, window, limit, NoFault));
    forall k | 0 <= k < |cs|
      ensures BurstCall(cs[k], Key(scope, subject, window, k), limit, window - 1 + length)
    {
      BurstFits(length, window, k);
    }
    forall j, k | 0 <= j < k < |cs|
      ensures cs[j].sent <= cs[k].sent
    {
      BurstTimesGrow(window, j, k);
    }
    if length == window > 1 { BucketBetween(2 * window - 2, window, 1, 1); }
    calls := Bursts(scope, subject, window, limit, cs, window - 1 + length);
  }

  /** No pipeline runs before its clock reading or more than `delay` after it, and Redis runs them in order of time. */
  ghost predicate DelayedBy(calls: seq<Call>, delay: nat) {
    InOrder(calls) && forall i :: 0 <= i < |calls| ==> calls[i].at <= calls[i].sent <= calls[i].at + delay
  }

  /**
   * Promptness is needed, whatever the window and limit: one tick of delay carries the last calls of a bucket
   * past the expiry of its counter, and the bucket admits its limit twice.
   */
  lemma LateCallsOverrun(scope: string, subject: string, window: Pos, limit: Pos) returns (calls: seq<Call>)
    ensures DelayedBy(calls, 1) && FaultFree(calls) && LimitIs(calls, Key(scope, subject, window, 0), limit)
    ensures Admitted(calls, Key(scope, subject, window, 0)) == 2 * limit
  {
    var early := Call(0, 0, scope, subject, window, limit, NoFault);
    var late := Call(window - 1, window, scope, subject, window, limit, NoFault);
    BucketBetween(window - 1, window, 0, 1);
    var first := Burst([], early, limit, 0, window);
    RepeatsOrdered([], first, early);
    calls := Burst(first, late, limit, 0, window);
    RepeatsOrdered(first, calls, late);
  }

  /** So is a Redis that does not fail: a failing pipeline lets its call through a full bucket without any delay. */
  lemma FailingCallOverruns(scope: string, subject: string, window: Pos, limit: Pos, fault: RedisFault)
    returns (calls: seq<Call>)
    requires !fault.NoFault?
    ensures DelayedBy(calls, 0) && LimitIs(calls, Key(scope, subject, window, 0), limit)
    ensures Admitted(calls, Key(scope, subject, window, 0)) == limit + 1
  {
    var c := Call(0, 0, scope, subject, window, limit, NoFault);
    var full := Burst([], c, limit, 0, window);
    RepeatsOrdered([], full, c);
    calls := full + [c.(fault := fault)];
    Snoc(full, c.(fault := fault));
  }

  /**
   * Exactly when buckets keep to their limits, over all calls with pipelines delayed by at most `delay` and failing
   * only where `faults` says they may.
   */
  lemma BucketLimitIff(scope: string, subject: string, window: Pos, limit: Pos, delay: nat, faults: bool)
    ensures (forall calls | DelayedBy(calls, delay) && (faults || FaultFree(calls))
                            && LimitIs(calls, Key(scope, subject, window, 0), limit) ::
               Admitted(calls, Key(scope, subject, window, 0)) <= limit) <==> delay == 0 && !faults
  {
    var key := Key(scope, subject, window, 0);
    if delay == 0 && !faults {
      forall calls | DelayedBy(calls, delay) && FaultFree(calls) && LimitIs(calls, key, limit)
        ensures Admitted(calls, key) <= limit
      {
        BucketWithin(calls, key, limit);
      }
    } else {
      var calls;
      if faults {
        calls := FailingCallOverruns(scope, subject, window, limit, Uncounted);
      } else {
        calls := LateCallsOverrun(scope, subject, window, limit);
      }
      assert DelayedBy(calls, delay);
    }
  }
}

// chaos_service/rate_limiter.py: the sliding log, the fixed buckets and their keys.

module RateLimiter {
  import opened Options
  import opened Redis
  import opened SlidingWindow
  import opened RateLimitKeys

  // RateLimitRule, as __post_init__ admits it.
  datatype Algorithm = Sliding | Fixed
  datatype RawRule = Rule(resource: string, algorithm: Algorithm, limit: nat, window: real, dimension: string)
  type Rule = r: RawRule | r.window > 0.0 && r.resource != "" && r.dimension != ""
    witness Rule("order", Sliding, 30, 1.0, "client_ip")

  function Ceil(x: real): int { -((0.0 - x).Floor) }

  function Ttl(r: Rule): real {
    (if Ceil(r.window) + 1 > 1 then Ceil(r.window) + 1 else 1) as real
  }

  // A whole number of seconds, at least one and less than two longer than the window.
  lemma TtlOutlivesWindow(r: Rule)
    ensures r.window + 1.0 <= Ttl(r) < r.window + 2.0 && Ttl(r).Floor as real == Ttl(r)
  {
  }

  // ---- Sliding window ----

  // One call of the script; the member is numbered by the admissions before it.
  function SlidingAllow<V>(r: Rule, e: Entry<V>, member: nat, now: real): (bool, Entry<V>) {
    var w := Refresh(e, now - r.window, now);
    if Size(w) >= r.limit then (false, w) else (true, AddMember(w, member, now, Ttl(r), now))
  }

  // Admit exactly when fewer than `limit` admissions lie in the trailing window of the whole history.
  function SlidingSpec(r: Rule, log: seq<Sample>, now: real): (bool, seq<Sample>) {
    if Tally(log, now - r.window, false) >= r.limit then (false, log) else (true, log + [Sample(now, false)])
  }

  lemma RefreshCounts<V>(r: Rule, e: Entry<V>, log: seq<Sample>, now: real)
    requires Tracks(e, log, now, r.window, Ttl(r), false)
    ensures Tracks(Refresh(e, now - r.window, now), log, now, r.window, Ttl(r), false)
    ensures Size(Refresh(e, now - r.window, now)) == Tally(log, now - r.window, false)
  {
    TtlOutlivesWindow(r);
    RefreshIsExact(e, log, now, r.window, Ttl(r), false);
    SameSize(Refresh(e, now - r.window, now), log, now - r.window, false);
  }

  lemma AddedTracks<V>(r: Rule, e: Entry<V>, log: seq<Sample>, now: real)
    requires Tracks(e, log, now, r.window, Ttl(r), false) && InThePast(log, now)
    ensures
      var e', log' := AddMember(Refresh(e, now - r.window, now), |log|, now, Ttl(r), now), log + [Sample(now, false)];
      Tracks(e', log', now, r.window, Ttl(r), false) && InThePast(log', now)
  {
    RefreshCounts(r, e, log, now);
    AddKeepsTrack(Refresh(e, now - r.window, now), log, Sample(now, false), now, r.window, Ttl(r), false);
  }

  // The pruned and expiring key decides as the full admission log would.
  lemma SlidingDecidesByHistory<V>(r: Rule, e: Entry<V>, log: seq<Sample>, now: real)
    requires Tracks(e, log, now, r.window, Ttl(r), false) && InThePast(log, now)
    ensures
      var (allowed, e') := SlidingAllow(r, e, |log|, now);
      var (admitted, log') := SlidingSpec(r, log, now);
      allowed == admitted && Tracks(e', log', now, r.window, Ttl(r), false) && InThePast(log', now)
  {
    RefreshCounts(r, e, log, now);
    AddedTracks(r, e, log, now);
  }

  // The admissions left by calls at the given instants.
  function Admissions(r: Rule, calls: seq<real>): seq<Sample> {
    if calls == [] then []
    else SlidingSpec(r, Admissions(r, calls[..|calls| - 1]), calls[|calls| - 1]).1
  }

  ghost predicate Nondecreasing(calls: seq<real>) {
    forall i, j | 0 <= i < j < |calls| :: calls[i] <= calls[j]
  }

  // The number of admissions in the window that ends with the one numbered k.
  ghost predicate NeverOverfull(r: Rule, log: seq<Sample>) {
    forall k | 0 <= k < |log| :: FitsAt(r, log, k)
  }

  predicate FitsAt(r: Rule, log: seq<Sample>, k: nat)
    requires k < |log|
  {
    Tally(log[..k + 1], log[k].at - r.window, false) <= r.limit
  }

  lemma AdmissionFits(r: Rule, log: seq<Sample>, now: real)
    requires NeverOverfull(r, log) && InThePast(log, now)
    ensures NeverOverfull(r, SlidingSpec(r, log, now).1) && InThePast(SlidingSpec(r, log, now).1, now)
  {
    var log' := SlidingSpec(r, log, now).1;
    forall k | 0 <= k < |log'| ensures FitsAt(r, log', k) {
      if k < |log| {
        assert FitsAt(r, log, k) && log'[..k + 1] == log[..k + 1];
      } else {
        NewSampleCounts(log, Sample(now, false), now - r.window, false);
        assert log'[..k + 1] == log';
      }
    }
  }

  lemma {:induction false} AdmissionsFit(r: Rule, calls: seq<real>)
    requires Nondecreasing(calls)
    ensures NeverOverfull(r, Admissions(r, calls))
    ensures if calls == [] then Admissions(r, calls) == [] else InThePast(Admissions(r, calls), calls[|calls| - 1])
  {
    if calls != [] {
      var front := calls[..|calls| - 1];
      AdmissionsFit(r, front);
      AdmissionFits(r, Admissions(r, front), calls[|calls| - 1]);
    }
  }

  // Which ends belong to an interval one window long.
  datatype Ends = OnlyLeft | OnlyRight | Both

  predicate Within(at: real, start: real, window: real, ends: Ends) {
    && (if ends.OnlyRight? then start < at else start <= at)
    && (if ends.OnlyLeft? then at < start + window else at <= start + window)
  }

  function InInterval(log: seq<Sample>, start: real, window: real, ends: Ends): set<nat> {
    set i: nat | i < |log| && Within(log[i].at, start, window, ends)
  }

  lemma SubsetSize(a: set<nat>, b: set<nat>)
    requires a <= b
    ensures |a| <= |b|
  {
    assert |b - a| == |b| - |a|;
  }

  // No two of these lie exactly one window apart.
  ghost predicate NeverAWindowApart(times: seq<real>, window: real) {
    forall x, y :: x in times && y in times ==> y - x != window
  }

  ghost predicate SamplesOf(log: seq<Sample>, calls: seq<real>) {
    forall i | 0 <= i < |log| :: log[i].at in calls
  }

  lemma {:induction false} AdmissionsAreCalls(r: Rule, calls: seq<real>)
    ensures SamplesOf(Admissions(r, calls), calls)
  {
    if calls != [] {
      AdmissionsAreCalls(r, calls[..|calls| - 1]);
    }
  }

  lemma LogFitsWindow(r: Rule, calls: seq<real>, start: real, ends: Ends)
    requires Nondecreasing(calls) && (ends.Both? ==> NeverAWindowApart(calls, r.window))
    ensures |InInterval(Admissions(r, calls), start, r.window, ends)| <= r.limit
  {
    AdmissionsFit(r, calls);
    AdmissionsAreCalls(r, calls);
    var log := Admissions(r, calls);
    var inside := InInterval(log, start, r.window, ends);
    if inside != {} {
      var k := LastOf(inside);
      forall i | i in inside
        ensures i in Counted(log[..k + 1], log[k].at - r.window, false)
      {
        assert i <= k && log[i].at <= log[k].at && log[i].at in calls && log[k].at in calls;
      }
      assert FitsAt(r, log, k);
      SubsetSize(inside, Counted(log[..k + 1], log[k].at - r.window, false));
    }
  }

  // ---- Runs of the script ----

  // The key after calls at the given instants, the decisions, and how many of them admitted.
  function SlidingRun<V>(r: Rule, calls: seq<real>): (result: (Entry<V>, seq<bool>, nat))
    ensures |result.1| == |calls|
  {
    if calls == [] then (Missing(), [], 0)
    else
      var (e, decisions, n) := SlidingRun<V>(r, calls[..|calls| - 1]);
      var (allowed, e') := SlidingAllow(r, e, n, calls[|calls| - 1]);
      (e', decisions + [allowed], if allowed then n + 1 else n)
  }

  // Whatever was pruned or expired on the way, the key stands for the full log of admissions.
  lemma {:induction false} RunTracksAdmissions<V>(r: Rule, calls: seq<real>, now: real)
    requires Nondecreasing(calls) && (calls != [] ==> calls[|calls| - 1] <= now)
    ensures
      var (e, decisions, n) := SlidingRun<V>(r, calls);
      && n == |Admissions(r, calls)|
      && Tracks(e, Admissions(r, calls), now, r.window, Ttl(r), false) && InThePast(Admissions(r, calls), now)
  {
    if calls != [] {
      var front, last := calls[..|calls| - 1], calls[|calls| - 1];
      RunTracksAdmissions<V>(r, front, last);
      var (e, decisions, n) := SlidingRun<V>(r, front);
      CallTracksAdmissions(r, e, n, Admissions(r, front), last, now);
    }
  }

  lemma CallTracksAdmissions<V>(r: Rule, e: Entry<V>, n: nat, log: seq<Sample>, at: real, now: real)
    requires Tracks(e, log, at, r.window, Ttl(r), false) && InThePast(log, at) && n == |log| && at <= now
    ensures
      var (allowed, e') := SlidingAllow(r, e, n, at);
      var log' := SlidingSpec(r, log, at).1;
      && Tracks(e', log', now, r.window, Ttl(r), false) && InThePast(log', now)
      && |log'| == if allowed then n + 1 else n
  {
    SlidingDecidesByHistory(r, e, log, at);
    TimePasses(SlidingAllow(r, e, n, at).1, SlidingSpec(r, log, at).1, at, now, r.window, Ttl(r), false);
  }

  lemma RunDecidesByHistory<V>(r: Rule, calls: seq<real>, now: real)
    requires Nondecreasing(calls + [now])
    ensures SlidingRun<V>(r, calls + [now]).1 ==
        SlidingRun<V>(r, calls).1 + [SlidingSpec(r, Admissions(r, calls), now).0]
    ensures Admissions(r, calls + [now]) == SlidingSpec(r, Admissions(r, calls), now).1
  {
    AdmissionsAppend(r, calls, now);
    assert (calls + [now])[..|calls|] == calls;
    assert forall i, j | 0 <= i < j < |calls| :: (calls + [now])[i] <= (calls + [now])[j];
    assert calls != [] ==> (calls + [now])[|calls| - 1] <= (calls + [now])[|calls|];
    RunTracksAdmissions<V>(r, calls, now);
    SlidingDecidesByHistory(r, SlidingRun<V>(r, calls).0, Admissions(r, calls), now);
  }

  // The calls of an interval that got a yes.
  function Yes(calls: seq<real>, decisions: seq<bool>, start: real, window: real, ends: Ends): set<nat>
    requires |calls| == |decisions|
  {
    set k: nat | k < |calls| && decisions[k] && Within(calls[k], start, window, ends)
  }

  // The calls of an interval that the script admitted.
  function AdmittedWithin<V>(r: Rule, calls: seq<real>, start: real, ends: Ends): set<nat> {
    Yes(calls, SlidingRun<V>(r, calls).1, start, r.window, ends)
  }

  lemma YesAppend(calls: seq<real>, decisions: seq<bool>, now: real, decision: bool, start: real, window: real,
      ends: Ends)
    requires |calls| == |decisions|
    ensures Yes(calls + [now], decisions + [decision], start, window, ends) ==
            Yes(calls, decisions, start, window, ends) + if decision && Within(now, start, window, ends)
              then {|calls|} else {}
  {
  }

  lemma IntervalAppend(log: seq<Sample>, s: Sample, start: real, window: real, ends: Ends)
    ensures InInterval(log + [s], start, window, ends) ==
            InInterval(log, start, window, ends) + if Within(s.at, start, window, ends) then {|log|} else {}
  {
  }

  lemma {:induction false} RunCountsAsLog<V>(r: Rule, calls: seq<real>, start: real, ends: Ends)
    requires Nondecreasing(calls)
    ensures |AdmittedWithin<V>(r, calls, start, ends)| == |InInterval(Admissions(r, calls), start, r.window, ends)|
  {
    if calls == [] {
      assert AdmittedWithin<V>(r, calls, start, ends) == {}
        && InInterval(Admissions(r, calls), start, r.window, ends) == {};
    } else {
      var front, now := calls[..|calls| - 1], calls[|calls| - 1];
      assert calls == front + [now];
      RunCountsAsLog<V>(r, front, start, ends);
      RunDecidesByHistory<V>(r, front, now);
      StepCountsAsLog(r, front, SlidingRun<V>(r, front).1, now, start, ends);
    }
  }

  lemma StepCountsAsLog(r: Rule, calls: seq<real>, decisions: seq<bool>, now: real, start: real, ends: Ends)
    requires |calls| == |decisions|
    requires |Yes(calls, decisions, start, r.window, ends)| == |InInterval(Admissions(r, calls), start, r.window, ends)|
    ensures
      var (admitted, log) := SlidingSpec(r, Admissions(r, calls), now);
      |Yes(calls + [now], decisions + [admitted], start, r.window, ends)| == |InInterval(log, start, r.window, ends)|
  {
    var log := Admissions(r, calls);
    YesAppend(calls, decisions, now, SlidingSpec(r, log, now).0, start, r.window, ends);
    IntervalAppend(log, Sample(now, false), start, r.window, ends);
  }

  // No half-open interval of window length, placed anywhere in any run of the script, holds more than
  // `limit` admissions.
  lemma NoWindowOverfull<V>(r: Rule, calls: seq<real>, start: real, ends: Ends)
    requires Nondecreasing(calls) && !ends.Both?
    ensures |AdmittedWithin<V>(r, calls, start, ends)| <= r.limit
  {
    RunCountsAsLog<V>(r, calls, start, ends);
    LogFitsWindow(r, calls, start, ends);
  }

  lemma {:induction false} LastOf(s: set<nat>) returns (k: nat)
    requires s != {}
    ensures k in s && forall i | i in s :: i <= k
    decreases |s|
  {
    var first: nat :| first in s;
    var larger := set i: nat | i in s && i > first;
    if larger == {} {
      k := first;
      forall i | i in s ensures i <= k {
        assert i !in larger;
      }
    } else {
      assert first !in larger;
      SubsetSize(larger, s - {first});
      k := LastOf(larger);
      forall i | i in s ensures i <= k {
        assert i > first ==> i in larger;
      }
    }
  }

  function Range(lo: nat, hi: nat): (range: set<nat>)
    requires lo <= hi
    ensures |range| == hi - lo
    ensures forall i: nat :: i in range <==> lo <= i < hi
  {
    if lo == hi then {} else Range(lo, hi - 1) + {hi - 1}
  }

  // With both ends included it still holds in a run whose calls are never exactly one window apart.
  lemma ClosedWindowFits<V>(r: Rule, calls: seq<real>, start: real)
    requires Nondecreasing(calls) && NeverAWindowApart(calls, r.window)
    ensures |AdmittedWithin<V>(r, calls, start, Both)| <= r.limit
  {
    RunCountsAsLog<V>(r, calls, start, Both);
    LogFitsWindow(r, calls, start, Both);
  }

  function Zeros(n: nat): seq<real> { seq(n, _ => 0.0) }
  function ZeroSamples(n: nat): seq<Sample> { seq(n, _ => Sample(0.0, false)) }

  lemma AdmissionsAppend(r: Rule, calls: seq<real>, now: real)
    ensures Admissions(r, calls + [now]) == SlidingSpec(r, Admissions(r, calls), now).1
  {
    assert (calls + [now])[..|calls|] == calls;
  }

  // A log shorter than the limit leaves room, whenever its admissions were.
  lemma ShortLogAdmits(r: Rule, log: seq<Sample>, now: real)
    requires |log| < r.limit
    ensures SlidingSpec(r, log, now) == (true, log + [Sample(now, false)])
  {
    SubsetSize(Counted(log, now - r.window, false), Range(0, |log|));
  }

  lemma {:induction false} ZerosAreAdmitted(r: Rule, n: nat)
    requires n <= r.limit
    ensures Admissions(r, Zeros(n)) == ZeroSamples(n)
  {
    if n > 0 {
      ZerosAreAdmitted(r, n - 1);
      assert Zeros(n) == Zeros(n - 1) + [0.0];
      AdmissionsAppend(r, Zeros(n - 1), 0.0);
      ShortLogAdmits(r, ZeroSamples(n - 1), 0.0);
      assert ZeroSamples(n) == ZeroSamples(n - 1) + [Sample(0.0, false)];
    }
  }

  // `limit` calls at one instant and one more exactly a window later.
  function Edge(r: Rule): seq<real> { Zeros(r.limit) + [r.window] }

  lemma EdgeIsAdmitted(r: Rule)
    ensures Admissions(r, Edge(r)) == if r.limit == 0 then [] else ZeroSamples(r.limit) + [Sample(r.window, false)]
  {
    ZerosAreAdmitted(r, r.limit);
    AdmissionsAppend(r, Zeros(r.limit), r.window);
    assert Counted(ZeroSamples(r.limit), r.window - r.window, false) == {};
  }

  // Otherwise it can fail: for every limit but 0 the closed interval from 0 to `window` holds limit + 1 admissions.
  lemma ClosedIntervalHoldsMore<V>(r: Rule)
    requires r.limit >= 1
    ensures Nondecreasing(Edge(r)) && |AdmittedWithin<V>(r, Edge(r), 0.0, Both)| == r.limit + 1
  {
    EdgeIsAdmitted(r);
    assert InInterval(Admissions(r, Edge(r)), 0.0, r.window, Both) == Range(0, r.limit + 1);
    RunCountsAsLog<V>(r, Edge(r), 0.0, Both);
  }

  lemma {:induction false} LimitZeroAdmitsNothing(r: Rule, calls: seq<real>)
    requires r.limit == 0
    ensures Admissions(r, calls) == []
  {
    if calls != [] {
      LimitZeroAdmitsNothing(r, calls[..|calls| - 1]);
    }
  }

  ghost predicate KeepsClosedWindows<V>(r: Rule) {
    forall calls, start :: Nondecreasing(calls) ==> |AdmittedWithin<V>(r, calls, start, Both)| <= r.limit
  }

  // The rules under which closed intervals never exceed the limit are those that admit nothing.
  lemma ClosedWindowsFitOnlyLimitZero<V>(r: Rule)
    ensures KeepsClosedWindows<V>(r) <==> r.limit == 0
  {
    if r.limit == 0 {
      forall calls, start | Nondecreasing(calls)
        ensures |AdmittedWithin<V>(r, calls, start, Both)| <= r.limit
      {
        LimitZeroAdmitsNothing(r, calls);
        RunCountsAsLog<V>(r, calls, start, Both);
        assert InInterval([], start, r.window, Both) == {};
      }
    } else {
      ClosedIntervalHoldsMore<V>(r);
    }
  }

  // ---- Fixed window ----

  function Bucket(r: Rule, now: real): int { (now / r.window).Floor }

  lemma Distributes(x: real, y: real, w: real)
    requires w > 0.0
    ensures (x + y) / w == x / w + y / w
  {
  }

  lemma QuotientSign(x: real, w: real)
    requires w > 0.0
    ensures x / w >= 0.0 <==> x >= 0.0
    ensures x / w < 1.0 ==> x < w
  {
    var q := x / w;
    assert q * w == x;
    if q < 0.0 { assert (0.0 - q) * w > 0.0; }
    if q < 1.0 { assert (1.0 - q) * w > 0.0; }
  }

  lemma WholePart(x: real, w: real, k: real)
    requires w > 0.0 && k <= x / w < k + 1.0
    ensures k * w <= x < k * w + w
  {
    var back := 0.0 - k * w;
    assert back / w == 0.0 - k;
    Distributes(x, back, w);
    QuotientSign(x + back, w);
  }

  lemma BucketBounds(r: Rule, now: real)
    ensures Bucket(r, now) as real * r.window <= now < Bucket(r, now) as real * r.window + r.window
  {
    WholePart(now, r.window, Bucket(r, now) as real);
  }

  lemma BucketMonotone(r: Rule, x: real, y: real)
    requires x <= y
    ensures Bucket(r, x) <= Bucket(r, y)
  {
    Distributes(x, y - x, r.window);
    QuotientSign(y - x, r.window);
  }

  lemma NextBucket(r: Rule, x: real)
    ensures Bucket(r, x + r.window) == Bucket(r, x) + 1
  {
    Distributes(x, r.window, r.window);
    assert r.window / r.window == 1.0;
  }

  // One call of the script on the key of the current bucket.
  function FixedAllow<V>(r: Rule, e: Entry<V>, now: real): (bool, Entry<V>) {
    var (n, e') := IncrExpire(e, Ttl(r), now);
    (n <= r.limit, e')
  }

  function BucketEntry<V>(buckets: map<int, Entry<V>>, b: int): Entry<V> {
    if b in buckets then buckets[b] else Missing()
  }

  // The keys of all buckets after calls at the given instants, and the decisions.
  function FixedRun<V>(r: Rule, calls: seq<real>): (map<int, Entry<V>>, seq<bool>) {
    if calls == [] then (map[], [])
    else
      var now := calls[|calls| - 1];
      var (buckets, decisions) := FixedRun<V>(r, calls[..|calls| - 1]);
      var (allowed, e) := FixedAllow(r, BucketEntry(buckets, Bucket(r, now)), now);
      (buckets[Bucket(r, now) := e], decisions + [allowed])
  }

  function CallsIn(r: Rule, calls: seq<real>, b: int): set<nat> {
    set i: nat | i < |calls| && Bucket(r, calls[i]) == b
  }

  // The key of a bucket with calls counts them all, and lives past the end of the bucket.
  ghost predicate Counts<V>(r: Rule, calls: seq<real>, e: Entry<V>, b: int) {
    if CallsIn(r, calls, b) == {} then e == Missing()
    else
      && e.counter == Some(|CallsIn(r, calls, b)|)
      && e.expires.Some? && e.expires.value > b as real * r.window + r.window
  }

  lemma CallsInAppend(r: Rule, calls: seq<real>, now: real, b: int)
    ensures CallsIn(r, calls + [now], b) == CallsIn(r, calls, b) + (if Bucket(r, now) == b then {|calls|} else {})
  {
  }

  lemma CountsNext<V>(r: Rule, calls: seq<real>, e: Entry<V>, now: real)
    requires Counts(r, calls, e, Bucket(r, now))
    ensures Counts(r, calls + [now], FixedAllow(r, e, now).1, Bucket(r, now))
    ensures FixedAllow(r, e, now).0 <==> |CallsIn(r, calls, Bucket(r, now))| < r.limit
  {
    BucketBounds(r, now);
    TtlOutlivesWindow(r);
    CallsInAppend(r, calls, now, Bucket(r, now));
  }

  // Call k is admitted exactly when fewer than `limit` earlier calls fell into its bucket.
  predicate Admitted(r: Rule, calls: seq<real>, k: nat)
    requires k < |calls|
  {
    |CallsIn(r, calls[..k], Bucket(r, calls[k]))| < r.limit
  }

  // No counter is lost while its bucket lasts, so the script decides by the full count.
  lemma {:induction false} CountersAreExact<V>(r: Rule, calls: seq<real>, b: int)
    ensures Counts(r, calls, BucketEntry(FixedRun<V>(r, calls).0, b), b)
  {
    if calls != [] {
      var front, now := calls[..|calls| - 1], calls[|calls| - 1];
      CountersAreExact<V>(r, front, b);
      assert calls == front + [now];
      CallsInAppend(r, front, now, b);
      if Bucket(r, now) == b {
        CountsNext(r, front, BucketEntry(FixedRun<V>(r, front).0, b), now);
      }
    }
  }

  lemma {:induction false} FixedDecidesByCount<V>(r: Rule, calls: seq<real>, k: nat)
    requires k < |calls|
    ensures |FixedRun<V>(r, calls).1| == |calls|
    ensures FixedRun<V>(r, calls).1[k] <==> Admitted(r, calls, k)
    decreases |calls|
  {
    var front, now := calls[..|calls| - 1], calls[|calls| - 1];
    if k < |front| {
      FixedDecidesByCount<V>(r, front, k);
      assert calls[..k] == front[..k];
    } else {
      if front != [] {
        FixedDecidesByCount<V>(r, front, 0);
      }
      CountersAreExact<V>(r, front, Bucket(r, now));
      CountsNext(r, front, BucketEntry(FixedRun<V>(r, front).0, Bucket(r, now)), now);
    }
  }

  function AdmittedIn(r: Rule, calls: seq<real>, b: int): set<nat> {
    set k: nat | k < |calls| && Bucket(r, calls[k]) == b && Admitted(r, calls, k)
  }

  // Every bucket admits exactly min(calls, limit).
  lemma {:induction false} BucketAdmitsUpToLimit(r: Rule, calls: seq<real>, b: int)
    ensures |AdmittedIn(r, calls, b)| == if |CallsIn(r, calls, b)| <= r.limit then |CallsIn(r, calls, b)| else r.limit
  {
    if calls == [] {
      assert CallsIn(r, calls, b) == {} && AdmittedIn(r, calls, b) == {};
    } else {
      var front, now := calls[..|calls| - 1], calls[|calls| - 1];
      BucketAdmitsUpToLimit(r, front, b);
      assert calls == front + [now];
      CallsInAppend(r, front, now, b);
      AdmittedInAppend(r, front, now, b);
    }
  }

  lemma AdmittedInAppend(r: Rule, front: seq<real>, now: real, b: int)
    ensures AdmittedIn(r, front + [now], b) ==
            AdmittedIn(r, front, b)
              + (if Bucket(r, now) == b && |CallsIn(r, front, b)| < r.limit then {|front|} else {})
  {
    var calls := front + [now];
    assert calls[..|front|] == front;
    forall k: nat | k < |front| ensures Admitted(r, calls, k) <==> Admitted(r, front, k) {
      assert calls[..k] == front[..k];
    }
  }

  // Any interval one window long, ends included, admits at most twice the limit.
  lemma IntervalAdmitsTwiceTheLimit(r: Rule, calls: seq<real>, start: real)
    ensures |(set k: nat | k < |calls| && start <= calls[k] <= start + r.window
        && Admitted(r, calls, k))| <= 2 * r.limit
  {
    var inside := set k: nat | k < |calls| && start <= calls[k] <= start + r.window && Admitted(r, calls, k);
    var b := Bucket(r, start);
    var first, second := AdmittedIn(r, calls, b), AdmittedIn(r, calls, b + 1);
    NextBucket(r, start);
    forall k | k in inside ensures k in first + second {
      BucketMonotone(r, start, calls[k]);
      BucketMonotone(r, calls[k], start + r.window);
    }
    BucketAdmitsUpToLimit(r, calls, b);
    BucketAdmitsUpToLimit(r, calls, b + 1);
    SubsetSize(inside, first + second);
  }

  // `limit` calls at half a window and `limit` calls at the end of it.
  function Burst(r: Rule): seq<real> {
    seq(2 * r.limit, i => if i < r.limit then r.window / 2.0 else r.window)
  }

  lemma BurstBuckets(r: Rule, k: nat)
    requires k < 2 * r.limit
    ensures Bucket(r, Burst(r)[k]) == if k < r.limit then 0 else 1
  {
    assert r.window / 2.0 / r.window == 0.5 && r.window / r.window == 1.0;
  }

  // The earlier calls of its bucket are fewer than the limit.
  lemma FewBefore(r: Rule, k: nat)
    requires k < 2 * r.limit
    ensures Admitted(r, Burst(r), k)
  {
    var calls, lo := Burst(r), if k < r.limit then 0 else r.limit;
    var earlier := CallsIn(r, calls[..k], Bucket(r, calls[k]));
    BurstBuckets(r, k);
    forall i | i in earlier
      ensures lo <= i < k
    {
      BurstBuckets(r, i);
    }
    SubsetSize(earlier, Range(lo, k));
  }

  // ... and the bound is reached: for every limit there is an interval shorter than a window, across
  // a bucket boundary, of 2 * limit calls that are all admitted.
  lemma TwiceTheLimitIsReached(r: Rule, k: nat)
    requires k < 2 * r.limit
    ensures Admitted(r, Burst(r), k) && r.window / 2.0 <= Burst(r)[k] < r.window / 2.0 + r.window
  {
    FewBefore(r, k);
  }

  // ---- The backend ----

  class RedisBackend {
    const redis: FakeRedis<string, string>
    const serviceName: string

    constructor (redis: FakeRedis<string, string>, serviceName: string)
      ensures this.redis == redis && this.serviceName == serviceName
    {
      this.redis, this.serviceName := redis, serviceName;
    }

    function KeyOf(r: Rule, subject: string): string
      reads redis
    {
      var base := BaseKey(serviceName, r.resource, r.dimension, subject);
      if r.algorithm.Fixed? then BucketKey(base, Bucket(r, redis.time)) else base
    }

    // `serial` stands for the uuid in the member name.
    method Allow(r: Rule, subject: string, serial: nat) returns (allowed: bool)
      modifies redis
      ensures redis.time == old(redis.time)
      ensures
        var key := KeyOf(r, subject);
        (allowed, redis.At(key)) ==
          if r.algorithm.Fixed? then FixedAllow(r, old(redis.At(key)), redis.time)
            else SlidingAllow(r, old(redis.At(key)), serial, redis.time)
      ensures forall k | k != KeyOf(r, subject) :: redis.At(k) == old(redis.At(k))
    {
      if r.algorithm.Fixed? {
        allowed := AllowFixed(r, subject);
      } else {
        allowed := AllowSliding(r, subject, serial);
      }
    }

    method AllowFixed(r: Rule, subject: string) returns (allowed: bool)
      requires r.algorithm.Fixed?
      modifies redis
      ensures redis.time == old(redis.time)
      ensures (allowed, redis.At(KeyOf(r, subject))) == FixedAllow(r, old(redis.At(KeyOf(r, subject))), redis.time)
      ensures forall k | k != KeyOf(r, subject) :: redis.At(k) == old(redis.At(k))
    {
      var bucket := (redis.time / r.window).Floor;
      var key := BucketKey(BaseKey(serviceName, r.resource, r.dimension, subject), bucket);
      var current := redis.Incr(key, Ttl(r));
      allowed := current <= r.limit;
    }

    method AllowSliding(r: Rule, subject: string, serial: nat) returns (allowed: bool)
      requires r.algorithm.Sliding?
      modifies redis
      ensures redis.time == old(redis.time)
      ensures (allowed, redis.At(KeyOf(r, subject))) ==
          SlidingAllow(r, old(redis.At(KeyOf(r, subject))), serial, redis.time)
      ensures forall k | k != KeyOf(r, subject) :: redis.At(k) == old(redis.At(k))
    {
      var key := BaseKey(serviceName, r.resource, r.dimension, subject);
      redis.RefreshWindow(key, redis.time - r.window);
      var current := redis.ZCard(key);
      if current >= r.limit {
        return false;
      }
      redis.ZAddExpire(key, serial, redis.time, Ttl(r));
      allowed := true;
    }
  }

  // ---- Clients do not share counters ----

  function Decision<V>(r: Rule, e: Entry<V>, serial: nat, now: real): bool {
    if r.algorithm.Fixed? then FixedAllow(r, e, now).0 else SlidingAllow(r, e, serial, now).0
  }

  lemma PlainKeysAreApart(backend: RedisBackend, r: Rule, s1: string, s2: string)
    requires Plain(s1) && Plain(s2) && s1 != s2
    ensures backend.KeyOf(r, s1) != backend.KeyOf(r, s2)
  {
    PlainSubjectsAreApart(backend.serviceName, r.resource, r.dimension, s1, s2);
    var b := Bucket(r, backend.redis.time);
    BucketKeysAreApart(backend.serviceName, r.resource, r.dimension, s1, b,
      backend.serviceName, r.resource, r.dimension, s2, b);
  }

  // Two clients that call one after the other are decided as if each were alone.
  method AllowBoth(backend: RedisBackend, r: Rule, s1: string, serial1: nat, s2: string, serial2: nat)
    returns (first: bool, second: bool)
    requires Plain(s1) && Plain(s2) && s1 != s2
    modifies backend.redis
    ensures backend.redis.time == old(backend.redis.time)
    ensures first == Decision(r, old(backend.redis.At(backend.KeyOf(r, s1))), serial1, backend.redis.time)
    ensures second == Decision(r, old(backend.redis.At(backend.KeyOf(r, s2))), serial2, backend.redis.time)
  {
    PlainKeysAreApart(backend, r, s1, s2);
    first := backend.Allow(r, s1, serial1);
    second := backend.Allow(r, s2, serial2);
  }

  // With limit 1, each of two new clients has its one call.
  method EachClientHasItsLimit(r: Rule, service: string, s1: string, s2: string)
    returns (first: bool, other: bool)
    requires r.limit == 1 && Plain(s1) && Plain(s2) && s1 != s2
    ensures first && other
  {
    var redis := new FakeRedis<string, string>();
    var backend := new RedisBackend(redis, service);
    first, other := AllowBoth(backend, r, s1, 0, s2, 1);
  }
}

// chaos_service/resilience/breaker/storage.py: the four keys of one circuit and what the
// storage methods do to them.

module BreakerStorage {
  import opened Options
  import opened Redis
  import opened SlidingWindow
  import opened Multiples

  // CircuitBreakerRule as __post_init__ admits it, with CIRCUIT_PROBE_TTL_SEC.
  datatype RawRule = Rule(threshold: real, minRequests: nat, windowSeconds: nat, openTimeout: nat, probeTtl: nat)
  type Rule = r: RawRule |
    0.0 <= r.threshold <= 1.0 && r.minRequests >= 1 && r.windowSeconds >= 1 && r.openTimeout >= 1 && r.probeTtl >= 1
    witness Rule(0.5, 100, 10, 8, 30)

  datatype CircuitState = CLOSED | OPEN | HALF_OPEN

  // The probe key holds "1" and open_until a number of seconds; neither is ever anything else.
  datatype Circuit = Circuit(openUntil: Entry<real>, probe: Entry<real>, failures: Entry<real>, totals: Entry<real>)

  function NewCircuit(): Circuit { Circuit(Missing(), Missing(), Missing(), Missing()) }

  function Window(r: Rule): real { r.windowSeconds as real }
  function WindowTtl(r: Rule): real { (r.windowSeconds + 2) as real }

  function OpenUntil(e: Entry<real>, now: real): real {
    var v := Value(e, now);
    if v.Some? then v.value else 0.0
  }

  // get_state: the clock is read before either key.
  function StateOf(asOf: real, openUntil: real, probeActive: bool): CircuitState {
    if openUntil > asOf then OPEN
    else if openUntil > 0.0 then HALF_OPEN
    else if probeActive then HALF_OPEN
    else CLOSED
  }

  function GetState(k: Circuit, now: real): CircuitState {
    StateOf(now, OpenUntil(k.openUntil, now), Value(k.probe, now).Some?)
  }

  // The state told from the two keys: open until the stored instant, half open after it, and without a stored
  // instant half open while somebody probes and closed otherwise.
  lemma StateByKeys(k: Circuit, now: real)
    requires now >= 0.0
    ensures
      var until := if Lives(k.openUntil, now) then k.openUntil.value.value else 0.0;
      && (GetState(k, now) == OPEN <==> until > now)
      && (GetState(k, now) == HALF_OPEN <==> 0.0 < until <= now || (until <= 0.0 && Lives(k.probe, now)))
      && (GetState(k, now) == CLOSED <==> until <= 0.0 && !Lives(k.probe, now))
  {
  }

  // The command of allow_request that raises a RedisError, if any.
  datatype AdmitError = NoError | OpenUntilRaises | ProbeReadRaises | ProbeSetRaises

  // Whether the request gets as far as that command.
  predicate AdmitRaises(k: Circuit, now: real, e: AdmitError) {
    match e
    case NoError => false
    case OpenUntilRaises => true
    case ProbeReadRaises => OpenUntil(k.openUntil, now) <= now && OpenUntil(k.openUntil, now) <= 0.0
    case ProbeSetRaises => GetState(k, now) == HALF_OPEN
  }

  // Told from the two keys: the probe key is only read when no instant is stored, and only set when half open.
  lemma RaisesByKeys(k: Circuit, now: real, e: AdmitError)
    requires now >= 0.0
    ensures
      var until := if Lives(k.openUntil, now) then k.openUntil.value.value else 0.0;
      AdmitRaises(k, now, e) <==>
      || e.OpenUntilRaises?
      || (e.ProbeReadRaises? && until <= 0.0)
      || (e.ProbeSetRaises? && (0.0 < until <= now || (until <= 0.0 && Lives(k.probe, now))))
  {
  }

  // Dropping expired keys, which reads do on the way, changes nothing anybody can see.
  function Tidy(k: Circuit, now: real): Circuit {
    k.(openUntil := Cleanup(k.openUntil, now), probe := Cleanup(k.probe, now))
  }

  function TryProbe(r: Rule, k: Circuit, now: real): (bool, Circuit) {
    var (ok, e) := SetNxEx(k.probe, 1.0, r.probeTtl as real, now);
    (ok, k.(probe := e))
  }

  // close: first one DEL of three keys, then the SET of open_until.
  function CloseDelete(k: Circuit): Circuit {
    k.(probe := Delete(k.probe), failures := Delete(k.failures), totals := Delete(k.totals))
  }

  function CloseSet(k: Circuit, now: real): Circuit {
    k.(openUntil := Set(k.openUntil, 0.0, now))
  }

  // reopen: DEL of the probe, then the SET of an instant computed before.
  function ReopenDelete(k: Circuit): Circuit {
    k.(probe := Delete(k.probe))
  }

  function ReopenSet(k: Circuit, openUntil: real, now: real): Circuit {
    k.(openUntil := Set(k.openUntil, openUntil, now))
  }

  // close, reopen and snapshot when their command number `error`, if there is one, raises.
  function CloseUntil(k: Circuit, error: Option<nat>, now: real): Circuit {
    if error == Some(0) then k else if error == Some(1) then CloseDelete(k) else CloseSet(CloseDelete(k), now)
  }

  function ReopenUntil(k: Circuit, error: Option<nat>, openUntil: real, now: real): Circuit {
    if error == Some(0) then k else if error == Some(1) then ReopenDelete(k)
    else ReopenSet(ReopenDelete(k), openUntil, now)
  }

  function SnapshotUntil(r: Rule, k: Circuit, error: Option<nat>, now: real): Circuit {
    if error == Some(0) then k else if error == Some(1) then PruneFailures(r, k, now) else SnapshotPrune(r, k, now)
  }

  datatype Counts = Counts(failures: nat, totals: nat)

  // The rate test without the division.
  predicate RateReached(r: Rule, c: Counts) {
    c.totals > 0 && Times(c.totals, r.threshold) <= c.failures as real
  }

  predicate Trips(r: Rule, c: Counts, openUntil: real, now: real) {
    c.totals >= r.minRequests && RateReached(r, c) && openUntil <= now
  }

  datatype Recorded = Recorded(tripped: bool, openUntil: real, counts: Counts)

  // The recording script; `serial` stands for the uuids in the member names.
  function AddOutcome(r: Rule, k: Circuit, failure: bool, serial: nat, now: real): Circuit {
    k.(failures := if failure then Extended(k.failures, serial, Window(r), WindowTtl(r), now)
                   else Refresh(k.failures, now - Window(r), now),
       totals := Extended(k.totals, serial, Window(r), WindowTtl(r), now))
  }

  // Its two halves: opening both windows, and adding the members.
  function RefreshWindows(r: Rule, k: Circuit, now: real): Circuit {
    k.(failures := Refresh(k.failures, now - Window(r), now), totals := Refresh(k.totals, now - Window(r), now))
  }

  function AddMembers(r: Rule, k: Circuit, failure: bool, serial: nat, now: real): Circuit {
    var totals := AddMember(k.totals, serial, now, WindowTtl(r), now);
    if failure then k.(failures := AddMember(k.failures, serial, now, WindowTtl(r), now), totals := totals)
    else k.(totals := totals)
  }

  lemma OutcomeInHalves(r: Rule, k: Circuit, failure: bool, serial: nat, now: real)
    ensures AddOutcome(r, k, failure, serial, now) == AddMembers(r, RefreshWindows(r, k, now), failure, serial, now)
  {
  }

  function RecordOutcome(r: Rule, k: Circuit, failure: bool, serial: nat, now: real): (Recorded, Circuit) {
    var k' := AddOutcome(r, k, failure, serial, now);
    var counts := Counts(Size(k'.failures), Size(k'.totals));
    var current := if k.openUntil.value.Some? then k.openUntil.value.value else 0.0;
    if Trips(r, counts, current, now)
    then (Recorded(true, now + r.openTimeout as real, counts),
      k'.(openUntil := k.openUntil.(value := Some(now + r.openTimeout as real))))
    else (Recorded(false, current, counts), k')
  }

  function PruneFailures(r: Rule, k: Circuit, now: real): Circuit {
    k.(failures := Prune(k.failures, now - Window(r)))
  }

  function PruneTotals(r: Rule, k: Circuit, now: real): Circuit {
    k.(totals := Prune(k.totals, now - Window(r)))
  }

  function SnapshotPrune(r: Rule, k: Circuit, now: real): Circuit {
    PruneTotals(r, PruneFailures(r, k, now), now)
  }

  // ---- The windows against the full history of outcomes since the last close ----

  ghost predicate WindowsTrack(r: Rule, k: Circuit, log: seq<Sample>, now: real) {
    && InThePast(log, now)
    && Tracks(k.failures, log, now, Window(r), WindowTtl(r), true)
    && Tracks(k.totals, log, now, Window(r), WindowTtl(r), false)
  }

  // What the history says about the trailing window.
  function HistoryCounts(r: Rule, log: seq<Sample>, now: real): Counts {
    var cutoff := now - r.windowSeconds as real;
    Counts(Tally(log, cutoff, true), Tally(log, cutoff, false))
  }

  lemma FailuresAreOutcomes(log: seq<Sample>, cutoff: real)
    ensures Tally(log, cutoff, true) <= Tally(log, cutoff, false)
  {
    var f, t := Counted(log, cutoff, true), Counted(log, cutoff, false);
    assert f <= t;
    assert |t - f| == |t| - |f|;
  }

  lemma FailuresFit(r: Rule, log: seq<Sample>, now: real)
    ensures HistoryCounts(r, log, now).failures <= HistoryCounts(r, log, now).totals
  {
    FailuresAreOutcomes(log, now - Window(r));
  }

  lemma TotalsAfter(r: Rule, k: Circuit, log: seq<Sample>, failure: bool, now: real)
    requires InThePast(log, now) && Tracks(k.totals, log, now, Window(r), WindowTtl(r), false)
    ensures
      var e, log' := AddOutcome(r, k, failure, |log|, now).totals, log + [Sample(now, failure)];
      Tracks(e, log', now, Window(r), WindowTtl(r), false) && Size(e) == Tally(log', now - Window(r), false)
  {
    ExtendIsExact(k.totals, log, Sample(now, failure), Window(r), WindowTtl(r), now, false);
  }

  lemma FailuresAfter(r: Rule, k: Circuit, log: seq<Sample>, now: real)
    requires InThePast(log, now) && Tracks(k.failures, log, now, Window(r), WindowTtl(r), true)
    ensures
      var e, log' := AddOutcome(r, k, true, |log|, now).failures, log + [Sample(now, true)];
      Tracks(e, log', now, Window(r), WindowTtl(r), true) && Size(e) == Tally(log', now - Window(r), true)
  {
    ExtendIsExact(k.failures, log, Sample(now, true), Window(r), WindowTtl(r), now, true);
  }

  lemma FailuresAfterSuccess(r: Rule, k: Circuit, log: seq<Sample>, now: real)
    requires Tracks(k.failures, log, now, Window(r), WindowTtl(r), true)
    ensures
      var e, log' := AddOutcome(r, k, false, |log|, now).failures, log + [Sample(now, false)];
      Tracks(e, log', now, Window(r), WindowTtl(r), true) && Size(e) == Tally(log', now - Window(r), true)
  {
    SuccessIsExact(k.failures, log, Sample(now, false), Window(r), WindowTtl(r), now);
  }

  lemma RecordKeepsTrack(r: Rule, k: Circuit, log: seq<Sample>, failure: bool, now: real)
    requires WindowsTrack(r, k, log, now)
    ensures WindowsTrack(r, RecordOutcome(r, k, failure, |log|, now).1, log + [Sample(now, failure)], now)
  {
    TotalsAfter(r, k, log, failure, now);
    if failure { FailuresAfter(r, k, log, now); } else { FailuresAfterSuccess(r, k, log, now); }
  }

  lemma AddOutcomeCounts(r: Rule, k: Circuit, log: seq<Sample>, failure: bool, now: real)
    requires WindowsTrack(r, k, log, now)
    ensures
      var k', log' := AddOutcome(r, k, failure, |log|, now), log + [Sample(now, failure)];
      && Size(k'.failures) == Tally(log', now - Window(r), true)
      && Size(k'.totals) == Tally(log', now - Window(r), false)
  {
    TotalsAfter(r, k, log, failure, now);
    if failure { FailuresAfter(r, k, log, now); } else { FailuresAfterSuccess(r, k, log, now); }
  }

  // Pruning and the two separate expiries notwithstanding, the script counts the outcomes of the
  // trailing window of the history, and failures never exceed totals.
  lemma RecordCountsHistory(r: Rule, k: Circuit, log: seq<Sample>, failure: bool, now: real)
    requires WindowsTrack(r, k, log, now)
    ensures
      var counts := HistoryCounts(r, log + [Sample(now, failure)], now);
      RecordOutcome(r, k, failure, |log|, now).0.counts == counts && counts.failures <= counts.totals
  {
    ScriptCounts(r, k, log, failure, now);
    FailuresFit(r, log + [Sample(now, failure)], now);
  }

  lemma TripsByQuotient(r: Rule, c: Counts, openUntil: real, now: real)
    ensures Trips(r, c, openUntil, now) <==>
            c.totals >= r.minRequests && c.failures as real / c.totals as real >= r.threshold && openUntil <= now
  {
    if c.totals > 0 {
      QuotientReaches(c.failures as real, c.totals, r.threshold);
    }
  }

  lemma ScriptCounts(r: Rule, k: Circuit, log: seq<Sample>, failure: bool, now: real)
    requires WindowsTrack(r, k, log, now)
    ensures RecordOutcome(r, k, failure, |log|, now).0.counts == HistoryCounts(r, log + [Sample(now, failure)], now)
  {
    AddOutcomeCounts(r, k, log, failure, now);
    var k' := AddOutcome(r, k, failure, |log|, now);
    assert Counts(Size(k'.failures), Size(k'.totals)) == HistoryCounts(r, log + [Sample(now, failure)], now);
  }

  // And the circuit opens exactly when those counts say so and it is not open already, for one timeout.
  lemma RecordTripsByHistory(r: Rule, k: Circuit, log: seq<Sample>, failure: bool, now: real)
    requires WindowsTrack(r, k, log, now)
    ensures
      var (result, after) := RecordOutcome(r, k, failure, |log|, now);
      var counts := HistoryCounts(r, log + [Sample(now, failure)], now);
      && (result.tripped <==>
        && counts.totals >= r.minRequests && counts.failures as real / counts.totals as real >= r.threshold
        && (k.openUntil.value.Some? ==> k.openUntil.value.value <= now) && (k.openUntil.value.None? ==> 0.0 <= now))
      && after.openUntil == if result.tripped then k.openUntil.(value := Some(now + r.openTimeout as real))
        else k.openUntil
  {
    ScriptCounts(r, k, log, failure, now);
    TripsByQuotient(r, HistoryCounts(r, log + [Sample(now, failure)], now),
      if k.openUntil.value.Some? then k.openUntil.value.value else 0.0, now);
  }

  // A window that gets no more outcomes is dropped two seconds after its last one left the window.
  lemma WindowsExpire(r: Rule, k: Circuit, failure: bool, serial: nat, now: real)
    ensures
      var after, last := AddOutcome(r, k, failure, serial, now), Some(now + r.windowSeconds as real + 2.0);
      after.totals.expires == last && (failure ==> after.failures.expires == last)
  {
  }

  lemma PruneCounts(r: Rule, e: Entry<real>, log: seq<Sample>, now: real, failuresOnly: bool)
    requires Tracks(e, log, now, Window(r), WindowTtl(r), failuresOnly)
    ensures Tracks(Prune(e, now - Window(r)), log, now, Window(r), WindowTtl(r), failuresOnly)
    ensures Size(Prune(e, now - Window(r))) == Tally(log, now - Window(r), failuresOnly)
  {
    PruneIsExact(e, log, now, Window(r), WindowTtl(r), failuresOnly);
    SameSize(Prune(e, now - Window(r)), log, now - Window(r), failuresOnly);
  }

  // One window was pruned.
  lemma FailuresPruned(r: Rule, k: Circuit, log: seq<Sample>, now: real)
    requires Tracks(k.failures, log, now, Window(r), WindowTtl(r), true)
    ensures
      var e := PruneFailures(r, k, now).failures;
      Tracks(e, log, now, Window(r), WindowTtl(r), true) && Size(e) == HistoryCounts(r, log, now).failures
  {
    PruneCounts(r, k.failures, log, now, true);
  }

  lemma TotalsPruned(r: Rule, k: Circuit, log: seq<Sample>, now: real)
    requires Tracks(k.totals, log, now, Window(r), WindowTtl(r), false)
    ensures
      var e := PruneTotals(r, k, now).totals;
      Tracks(e, log, now, Window(r), WindowTtl(r), false) && Size(e) == HistoryCounts(r, log, now).totals
  {
    PruneCounts(r, k.totals, log, now, false);
  }

  lemma PruneFailuresCounts(r: Rule, k: Circuit, log: seq<Sample>, now: real)
    requires WindowsTrack(r, k, log, now)
    ensures WindowsTrack(r, PruneFailures(r, k, now), log, now)
    ensures Size(PruneFailures(r, k, now).failures) == HistoryCounts(r, log, now).failures
  {
    FailuresPruned(r, k, log, now);
    assert PruneFailures(r, k, now).totals == k.totals;
  }

  lemma PruneTotalsCounts(r: Rule, k: Circuit, log: seq<Sample>, now: real)
    requires WindowsTrack(r, k, log, now)
    ensures WindowsTrack(r, PruneTotals(r, k, now), log, now)
    ensures Size(PruneTotals(r, k, now).totals) == HistoryCounts(r, log, now).totals
  {
    TotalsPruned(r, k, log, now);
    assert PruneTotals(r, k, now).failures == k.failures;
  }

  // The same for snapshot, which prunes without looking at the expiries.
  lemma SnapshotCountsHistory(r: Rule, k: Circuit, log: seq<Sample>, now: real)
    requires WindowsTrack(r, k, log, now)
    ensures WindowsTrack(r, SnapshotPrune(r, k, now), log, now)
    ensures Size(SnapshotPrune(r, k, now).failures) == HistoryCounts(r, log, now).failures
    ensures Size(SnapshotPrune(r, k, now).totals) == HistoryCounts(r, log, now).totals
  {
    PruneFailuresCounts(r, k, log, now);
    PruneTotalsCounts(r, PruneFailures(r, k, now), log, now);
  }

  lemma CloseClearsHistory(r: Rule, k: Circuit, now: real)
    ensures WindowsTrack(r, CloseDelete(k), [], now)
  {
    assert Counted([], now - Window(r), true) == {} && Counted([], now - Window(r), false) == {};
  }

  lemma WindowsTrackLater(r: Rule, k: Circuit, log: seq<Sample>, now: real, later: real)
    requires WindowsTrack(r, k, log, now) && now <= later
    ensures WindowsTrack(r, k, log, later)
  {
    TimePasses(k.failures, log, now, later, Window(r), WindowTtl(r), true);
    TimePasses(k.totals, log, now, later, Window(r), WindowTtl(r), false);
  }

  // ---- The storage object ----

  // The four configured names are distinct.
  datatype Key = OPEN_UNTIL | FAILURES | TOTALS | PROBE

  class RedisCircuitBreakerStorage {
    const redis: FakeRedis<Key, real>
    const rule: Rule

    constructor (redis: FakeRedis<Key, real>, rule: Rule)
      ensures this.redis == redis && this.rule == rule
    {
      this.redis, this.rule := redis, rule;
    }

    function State(): Circuit
      reads redis
    {
      Circuit(redis.At(OPEN_UNTIL), redis.At(PROBE), redis.At(FAILURES), redis.At(TOTALS))
    }

    method GetOpenUntil() returns (openUntil: real)
      modifies redis
      ensures openUntil == OpenUntil(old(State()).openUntil, redis.time) && redis.time == old(redis.time)
      ensures State() == old(State()).(openUntil := Cleanup(old(State()).openUntil, redis.time))
    {
      var raw := redis.Get(OPEN_UNTIL);
      openUntil := if raw.Some? then raw.value else 0.0;
    }

    method IsProbeActive() returns (active: bool)
      modifies redis
      ensures active == Value(old(State()).probe, redis.time).Some? && redis.time == old(redis.time)
      ensures State() == old(State()).(probe := Cleanup(old(State()).probe, redis.time))
    {
      var raw := redis.Get(PROBE);
      active := raw.Some?;
    }

    // None when one of the two reads raises.
    method ReadState(error: AdmitError) returns (state: Option<CircuitState>)
      modifies redis
      ensures state.None? <==> !error.ProbeSetRaises? && AdmitRaises(old(State()), redis.time, error)
      ensures state.Some? ==> state.value == GetState(old(State()), redis.time)
      ensures redis.time == old(redis.time) && Tidy(State(), redis.time) == Tidy(old(State()), redis.time)
    {
      var now := redis.time;
      if error.OpenUntilRaises? {
        return None;
      }
      var openUntil := GetOpenUntil();
      if openUntil > now {
        return Some(OPEN);
      }
      if openUntil > 0.0 {
        return Some(HALF_OPEN);
      }
      if error.ProbeReadRaises? {
        return None;
      }
      var active := IsProbeActive();
      state := Some(if active then HALF_OPEN else CLOSED);
    }

    method TryAcquireProbe() returns (ok: bool)
      modifies redis
      ensures (ok, State()) == TryProbe(rule, old(State()), redis.time) && redis.time == old(redis.time)
    {
      ok := redis.SetIfAbsent(PROBE, 1.0, rule.probeTtl as real);
    }

    // The error is the number of the command that raises, here and below.
    method Close(error: Option<nat>) returns (raised: bool)
      modifies redis
      ensures raised <==> error.Some? && error.value < 2
      ensures State() == CloseUntil(old(State()), error, redis.time) && redis.time == old(redis.time)
    {
      if error == Some(0) {
        return true;
      }
      redis.Del(PROBE);
      redis.Del(FAILURES);
      redis.Del(TOTALS);
      if error == Some(1) {
        return true;
      }
      redis.SetPlain(OPEN_UNTIL, 0.0);
      raised := false;
    }

    method Reopen(error: Option<nat>) returns (raised: bool, openUntil: real)
      modifies redis
      ensures openUntil == redis.time + rule.openTimeout as real && redis.time == old(redis.time)
      ensures raised <==> error.Some? && error.value < 2
      ensures State() == ReopenUntil(old(State()), error, openUntil, redis.time)
    {
      openUntil := redis.time + rule.openTimeout as real;
      if error == Some(0) {
        return true, openUntil;
      }
      redis.Del(PROBE);
      if error == Some(1) {
        return true, openUntil;
      }
      redis.SetPlain(OPEN_UNTIL, openUntil);
      raised := false;
    }

    method CountWindows() returns (counts: Counts)
      ensures counts == Counts(Size(State().failures), Size(State().totals))
    {
      var failures := redis.ZCard(FAILURES);
      var totals := redis.ZCard(TOTALS);
      counts := Counts(failures, totals);
    }

    method PruneWindow(key: Key)
      requires key == FAILURES || key == TOTALS
      modifies redis
      ensures redis.time == old(redis.time)
      ensures key == FAILURES ==> State() == PruneFailures(rule, old(State()), redis.time)
      ensures key == TOTALS ==> State() == PruneTotals(rule, old(State()), redis.time)
    {
      redis.ZRemRangeByScore(key, redis.time - Window(rule));
    }

    // Two prunings and two counts; None when one of them raises.
    method Snapshot(error: Option<nat>) returns (counts: Option<Counts>)
      modifies redis
      ensures counts.None? <==> error.Some? && error.value < 4
      ensures State() == SnapshotUntil(rule, old(State()), error, redis.time)
      ensures redis.time == old(redis.time)
      ensures counts.Some? ==> counts.value == Counts(Size(State().failures), Size(State().totals))
    {
      if error == Some(0) {
        return None;
      }
      PruneWindow(FAILURES);
      if error == Some(1) {
        return None;
      }
      PruneWindow(TOTALS);
      if error == Some(2) || error == Some(3) {
        return None;
      }
      var both := CountWindows();
      counts := Some(both);
    }

    // What other clients make of the four keys between two commands of this one.
    method Interfere(now: real, k: Circuit)
      requires now >= redis.time
      modifies redis
      ensures State() == k && redis.time == now
    {
      redis.Interfere(OPEN_UNTIL, now, k.openUntil);
      redis.Interfere(PROBE, now, k.probe);
      redis.Interfere(FAILURES, now, k.failures);
      redis.Interfere(TOTALS, now, k.totals);
    }

    method RefreshBoth()
      modifies redis
      ensures redis.time == old(redis.time) && State() == RefreshWindows(rule, old(State()), redis.time)
    {
      var cutoff := redis.time - Window(rule);
      redis.RefreshWindow(FAILURES, cutoff);
      redis.RefreshWindow(TOTALS, cutoff);
    }

    method AddToBoth(failure: bool, serial: nat)
      modifies redis
      ensures redis.time == old(redis.time)
      ensures State() == AddMembers(rule, old(State()), failure, serial, redis.time)
    {
      redis.ZAddExpire(TOTALS, serial, redis.time, WindowTtl(rule));
      if failure {
        redis.ZAddExpire(FAILURES, serial, redis.time, WindowTtl(rule));
      }
    }

    // The first half of the script: prune both windows, add the members, count.
    method AddToWindows(failure: bool, serial: nat) returns (counts: Counts)
      modifies redis
      ensures State() == AddOutcome(rule, old(State()), failure, serial, redis.time) && redis.time == old(redis.time)
      ensures counts == Counts(Size(State().failures), Size(State().totals))
    {
      OutcomeInHalves(rule, State(), failure, serial, redis.time);
      RefreshBoth();
      AddToBoth(failure, serial);
      counts := CountWindows();
    }

    method Record(failure: bool, serial: nat) returns (result: Recorded)
      modifies redis
      ensures (result, State()) == RecordOutcome(rule, old(State()), failure, serial, redis.time)
          && redis.time == old(redis.time)
    {
      var now := redis.time;
      var counts := AddToWindows(failure, serial);
      var failures, totals := counts.failures, counts.totals;
      var current := if OPEN_UNTIL in redis.store then redis.store[OPEN_UNTIL] else 0.0;
      if totals > 0 {
        QuotientReaches(failures as real, totals, rule.threshold);
      }
      if totals >= rule.minRequests && failures as real / totals as real >= rule.threshold && current <= now {
        redis.Store(OPEN_UNTIL, now + rule.openTimeout as real);
        return Recorded(true, now + rule.openTimeout as real, counts);
      }
      result := Recorded(false, current, counts);
    }
  }
}

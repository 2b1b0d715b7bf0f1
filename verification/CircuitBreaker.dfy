// chaos_service/resilience/breaker/breaker.py: one breaker object, one call at a time.

module CircuitBreaker {
  import opened Options
  import opened Redis
  import opened BreakerStorage

  datatype Admission = Admission(allowed: bool, acquired: bool, circuit: Circuit)

  // allow_request with nobody in between.
  function Admit(r: Rule, k: Circuit, now: real): Admission {
    match GetState(k, now)
    case CLOSED => Admission(true, false, k)
    case OPEN => Admission(false, false, k)
    case HALF_OPEN => var (ok, k') := TryProbe(r, k, now); Admission(ok, ok, k')
  }

  // What lets a request through, told from the two keys. It passes without the probe if open_until was never
  // set or is at most 0 and nobody probes; it passes as the probe if an opening is over and nobody probes;
  // and it is turned away while somebody probes or an opening lasts.
  lemma AdmissionByKeys(r: Rule, k: Circuit, now: real)
    requires now >= 0.0
    ensures
      var a, until := Admit(r, k, now), if Lives(k.openUntil, now) then k.openUntil.value.value else 0.0;
      && (a.allowed && !a.acquired <==> until <= 0.0 && !Lives(k.probe, now))
      && (a.allowed && a.acquired <==> 0.0 < until <= now && !Lives(k.probe, now))
      && (!a.allowed <==> until > now || Lives(k.probe, now))
      && (a.acquired ==> a.allowed)
  {
  }

  // The decisions for requests that ask one after the other.
  function AskAll(r: Rule, k: Circuit, times: seq<real>): seq<Admission>
    decreases |times|
  {
    if times == [] then []
    else var a := Admit(r, k, times[0]); [a] + AskAll(r, a.circuit, times[1..])
  }

  // While a probe is out, everybody else is turned away.
  lemma {:induction false} RestAreTurnedAway(r: Rule, k: Circuit, times: seq<real>, until: real)
    requires k.probe.value.Some? && k.probe.expires == Some(until)
    requires forall i | 0 <= i < |times| :: 0.0 <= times[i] <= until
    ensures |AskAll(r, k, times)| == |times| && forall i | 0 <= i < |times| :: !AskAll(r, k, times)[i].allowed
    decreases |times|
  {
    if times != [] {
      AdmissionByKeys(r, k, times[0]);
      var a := Admit(r, k, times[0]);
      RestAreTurnedAway(r, a.circuit, times[1..], until);
      forall i | 0 <= i < |times| ensures !AskAll(r, k, times)[i].allowed {
        assert i > 0 ==> AskAll(r, k, times)[i] == AskAll(r, a.circuit, times[1..])[i - 1];
      }
    }
  }

  // Of all requests that ask after an opening, at one instant or within the lease of the first, exactly the
  // first is let through, and it holds the probe.
  lemma ExactlyOneProbes(r: Rule, k: Circuit, times: seq<real>)
    requires times != [] && Lives(k.openUntil, times[0]) && 0.0 < k.openUntil.value.value <= times[0]
    requires !Lives(k.probe, times[0])
    requires forall i | 0 <= i < |times| :: times[0] <= times[i] <= times[0] + r.probeTtl as real
    ensures |AskAll(r, k, times)| == |times| && AskAll(r, k, times)[0].acquired
    ensures forall i | 0 <= i < |times| :: AskAll(r, k, times)[i].allowed <==> i == 0
  {
    AdmissionByKeys(r, k, times[0]);
    var a := Admit(r, k, times[0]);
    RestAreTurnedAway(r, a.circuit, times[1..], times[0] + r.probeTtl as real);
    forall i | 0 <= i < |times| ensures AskAll(r, k, times)[i].allowed <==> i == 0 {
      assert i > 0 ==> AskAll(r, k, times)[i] == AskAll(r, a.circuit, times[1..])[i - 1];
    }
  }

  // Expired keys that a read dropped do not change what the probe contest does.
  lemma TidyProbe(r: Rule, k: Circuit, tidier: Circuit, now: real)
    requires Tidy(k, now) == Tidy(tidier, now) && GetState(k, now) == HALF_OPEN
    ensures
      var a, (ok, after) := Admit(r, k, now), TryProbe(r, tidier, now);
      a.allowed == a.acquired == ok && Tidy(after, now) == Tidy(a.circuit, now)
  {
  }

  // ---- What one report does, when its command number `error` raises ----

  // A probe's success reads open_until, deletes three keys and sets open_until; its failure deletes the
  // probe, sets open_until and takes a snapshot with four commands. Any other report is one script.
  datatype Report = SuccessScript | FailureScript | ProbeClose | ProbeReopen

  function ReportOf(probe: bool, success: bool): Report {
    if probe then if success then ProbeClose else ProbeReopen
    else if success then SuccessScript else FailureScript
  }

  function Commands(report: Report): nat {
    match report case ProbeClose => 3 case ProbeReopen => 6 case _ => 1
  }

  predicate Raises(report: Report, error: Option<nat>) {
    error.Some? && error.value < Commands(report)
  }

  // The outcome is recorded: only the snapshot after a reopen may still raise.
  predicate Lands(report: Report, error: Option<nat>) {
    !Raises(report, error) || (report.ProbeReopen? && error.value >= 2)
  }

  // The number an error has among the commands that follow the first n.
  function Later(error: Option<nat>, n: nat): Option<nat> {
    if error.Some? && error.value >= n then Some(error.value - n) else None
  }

  // The circuit after the commands of a probe's report that went through.
  function ClosedByProbe(k: Circuit, now: real, error: Option<nat>): Circuit {
    if error == Some(0) then k
    else CloseUntil(k.(openUntil := Cleanup(k.openUntil, now)), Later(error, 1), now)
  }

  function ReopenedByProbe(r: Rule, k: Circuit, now: real, error: Option<nat>): Circuit {
    var reopened := ReopenUntil(k, error, now + r.openTimeout as real, now);
    if error == Some(0) || error == Some(1) then reopened else SnapshotUntil(r, reopened, Later(error, 2), now)
  }

  // The circuit after any report.
  function Reported(r: Rule, report: Report, k: Circuit, serial: nat, now: real, error: Option<nat>): Circuit {
    match report
    case SuccessScript => if error == Some(0) then k else RecordOutcome(r, k, false, serial, now).1
    case FailureScript => if error == Some(0) then k else RecordOutcome(r, k, true, serial, now).1
    case ProbeClose => ClosedByProbe(k, now, error)
    case ProbeReopen => ReopenedByProbe(r, k, now, error)
  }

  class Breaker {
    const storage: RedisCircuitBreakerStorage
    var lastState: CircuitState
    var probeAcquired: bool
    ghost var reports: seq<bool>  // the outcomes recorded so far, true for a success

    constructor (storage: RedisCircuitBreakerStorage)
      ensures this.storage == storage && !probeAcquired && lastState == CLOSED && reports == []
    {
      this.storage, lastState, probeAcquired, reports := storage, CLOSED, false, [];
    }

    // A contender that loses the probe, or is turned away, never clears the flag of the holder.
    method AllowRequest(error: AdmitError) returns (raised: bool, allowed: bool)
      modifies this, storage.redis
      ensures storage.redis.time == old(storage.redis.time) && reports == old(reports)
      ensures raised <==> AdmitRaises(old(storage.State()), storage.redis.time, error)
      ensures raised ==> !allowed
      ensures raised ==> Tidy(storage.State(), storage.redis.time) == Tidy(old(storage.State()), storage.redis.time)
      ensures !raised ==>
        var a := Admit(storage.rule, old(storage.State()), storage.redis.time);
        allowed == a.allowed && probeAcquired == (old(probeAcquired) || a.acquired)
      ensures !raised ==>
        var a := Admit(storage.rule, old(storage.State()), storage.redis.time);
        Tidy(storage.State(), storage.redis.time) == Tidy(a.circuit, storage.redis.time)
      ensures !allowed ==> probeAcquired == old(probeAcquired)
    {
      ghost var before, now := storage.State(), storage.redis.time;
      var state := storage.ReadState(error);
      ghost var read := storage.State();
      if state.None? {
        return true, false;
      }
      var current := state.value;
      lastState := current;
      if current == CLOSED {
        return false, true;
      }
      if current == OPEN {
        return false, false;
      }
      if error.ProbeSetRaises? {
        return true, false;
      }
      TidyProbe(storage.rule, before, read, now);
      allowed := Contend();
      raised := false;
    }

    // The half-open branch: only the winner of the lock takes the flag.
    method Contend() returns (acquired: bool)
      modifies this, storage.redis
      ensures storage.redis.time == old(storage.redis.time) && reports == old(reports)
      ensures (acquired, storage.State()) == TryProbe(storage.rule, old(storage.State()), storage.redis.time)
      ensures probeAcquired == (old(probeAcquired) || acquired)
    {
      acquired := storage.TryAcquireProbe();
      if acquired {
        probeAcquired := true;
        lastState := HALF_OPEN;
      }
    }

    // A probe that succeeds closes the circuit and empties both windows; any other success is an outcome.
    method RecordSuccess(serial: nat, error: Option<nat>) returns (raised: bool, result: Option<Recorded>)
      modifies this, storage.redis
      ensures storage.redis.time == old(storage.redis.time)
      ensures raised <==> Raises(ReportOf(old(probeAcquired), true), error)
      ensures reports == old(reports) + if Lands(ReportOf(old(probeAcquired), true), error) then [true] else []
      ensures probeAcquired <==> old(probeAcquired) && !Lands(ReportOf(old(probeAcquired), true), error)
      ensures storage.State() ==
          Reported(storage.rule, ReportOf(old(probeAcquired), true), old(storage.State()), serial,
                storage.redis.time, error)
      ensures !raised && old(probeAcquired) ==> result == None && lastState == CLOSED
      ensures !raised && !old(probeAcquired) ==>
                && result.Some?
                && result.value == RecordOutcome(storage.rule, old(storage.State()), false, serial,
                  storage.redis.time).0
                && lastState == if result.value.tripped then OPEN else CLOSED
    {
      if probeAcquired {
        raised := CloseAsProbe(error);
        return raised, None;
      }
      if error == Some(0) {
        return true, None;
      }
      var recorded := RecordAsRequest(false, serial);
      raised, result := false, Some(recorded);
    }

    // A probe that fails opens the circuit for a whole timeout; any other failure is an outcome.
    method RecordFailure(serial: nat, error: Option<nat>) returns (raised: bool, result: Option<Recorded>)
      modifies this, storage.redis
      ensures storage.redis.time == old(storage.redis.time)
      ensures raised <==> Raises(ReportOf(old(probeAcquired), false), error)
      ensures reports == old(reports) + if Lands(ReportOf(old(probeAcquired), false), error) then [false] else []
      ensures probeAcquired <==> old(probeAcquired) && !Lands(ReportOf(old(probeAcquired), false), error)
      ensures storage.State() ==
          Reported(storage.rule, ReportOf(old(probeAcquired), false), old(storage.State()), serial,
                storage.redis.time, error)
      ensures !raised && old(probeAcquired) ==> result.Some? && result.value.tripped && lastState == OPEN
      ensures !raised && !old(probeAcquired) ==>
                && result.Some?
                && result.value == RecordOutcome(storage.rule, old(storage.State()), true, serial, storage.redis.time).0
                && lastState == if result.value.tripped then OPEN else CLOSED
    {
      if probeAcquired {
        raised, result := ReopenAsProbe(error);
        return;
      }
      if error == Some(0) {
        return true, None;
      }
      var recorded := RecordAsRequest(true, serial);
      raised, result := false, Some(recorded);
    }

    // The probe's report has landed: the flag goes down.
    method Settle(success: bool)
      modifies this
      ensures !probeAcquired && lastState == (if success then CLOSED else OPEN) && reports == old(reports) + [success]
    {
      probeAcquired, lastState, reports := false, if success then CLOSED else OPEN, reports + [success];
    }

    method CloseAsProbe(error: Option<nat>) returns (raised: bool)
      requires probeAcquired
      modifies this, storage.redis
      ensures storage.redis.time == old(storage.redis.time)
      ensures raised <==> Raises(ProbeClose, error)
      ensures reports == old(reports) + (if raised then [] else [true]) && probeAcquired == raised
      ensures storage.State() == ClosedByProbe(old(storage.State()), storage.redis.time, error)
      ensures !raised ==> lastState == CLOSED
    {
      if error == Some(0) {
        return true;
      }
      var openUntil := storage.GetOpenUntil();
      raised := storage.Close(Later(error, 1));
      if !raised {
        Settle(true);
      }
    }

    method ReopenAsProbe(error: Option<nat>) returns (raised: bool, result: Option<Recorded>)
      requires probeAcquired
      modifies this, storage.redis
      ensures storage.redis.time == old(storage.redis.time)
      ensures raised <==> Raises(ProbeReopen, error)
      ensures reports == old(reports) + if Lands(ProbeReopen, error) then [false] else []
      ensures probeAcquired <==> !Lands(ProbeReopen, error)
      ensures storage.State() == ReopenedByProbe(storage.rule, old(storage.State()), storage.redis.time, error)
      ensures !raised ==> result.Some? && result.value.tripped && lastState == OPEN
    {
      var openUntil;
      raised, openUntil := storage.Reopen(error);
      if raised {
        return true, None;
      }
      Settle(false);
      var counts := storage.Snapshot(Later(error, 2));
      if counts.None? {
        return true, None;
      }
      raised, result := false, Some(Recorded(true, openUntil, counts.value));
    }

    // The recording script went through.
    method RecordAsRequest(failure: bool, serial: nat) returns (result: Recorded)
      modifies this, storage.redis
      ensures storage.redis.time == old(storage.redis.time) && probeAcquired == old(probeAcquired)
      ensures reports == old(reports) + [!failure] && lastState == if result.tripped then OPEN else CLOSED
      ensures (result, storage.State()) ==
              RecordOutcome(storage.rule, old(storage.State()), failure, serial, storage.redis.time)
    {
      result := storage.Record(failure, serial);
      lastState, reports := if result.tripped then OPEN else CLOSED, reports + [!failure];
    }
  }

  // A probe's success leaves the circuit closed with both windows empty; its failure opens it for a whole
  // timeout and frees the lock, even if the snapshot after it raises.
  lemma ProbeReportsDecide(r: Rule, k: Circuit, serial: nat, now: real, error: Option<nat>)
    requires now >= 0.0
    ensures Lands(ProbeClose, error) ==>
      var closed := Reported(r, ProbeClose, k, serial, now, error);
      && GetState(closed, now) == CLOSED && OpenUntil(closed.openUntil, now) == 0.0
      && Members(closed.failures) == map[] && Members(closed.totals) == map[]
    ensures Lands(ProbeReopen, error) ==>
      var reopened := Reported(r, ProbeReopen, k, serial, now, error);
      && GetState(reopened, now) == OPEN && OpenUntil(reopened.openUntil, now) == now + r.openTimeout as real
      && reopened.probe.value == None
  {
  }
}

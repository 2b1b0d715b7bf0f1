// Any number of breaker objects on one circuit, each between two of its Redis calls: requests that
// probe, requests that were admitted earlier and report late, and requests that never report.

module BreakerProtocol {
  import opened Options
  import opened Redis
  import opened SlidingWindow
  import opened BreakerStorage
  import opened CircuitBreaker

  datatype Phase =
    | Idle
    | Asking(asOf: real)
    | SawOpenUntil(asOf: real, openUntil: real)
    | HalfOpen
    | Admitted
    | Rejected
    | Probing(since: real)
    | ReadyToReopen(since: real, openUntil: real)
    | Reopening(openUntil: real)
    | PruningFailures
    | PruningTotals
    | Closing
    | Finished
    | Abandoned

  datatype State = State(now: real, circuit: Circuit, requests: map<nat, Phase>, lastWrite: real, log: seq<Sample>)

  datatype Move =
    | Tick(seconds: real)
    | Arrive(pid: nat)
    | Proceed(pid: nat)
    | Report(pid: nat, failure: bool)
    | Abandon(pid: nat)

  datatype Run = Begin | Then(before: Run, move: Move)

  predicate CanProceed(ph: Phase) {
    ph.Idle? || ph.Asking? || ph.SawOpenUntil? || ph.HalfOpen? || ph.ReadyToReopen? || ph.Reopening?
      || ph.PruningFailures? || ph.PruningTotals?
    || ph.Closing?
  }

  predicate Enabled(s: State, m: Move) {
    match m
    case Tick(seconds) => seconds >= 0.0
    case Arrive(p) => p !in s.requests
    case Proceed(p) => p in s.requests && CanProceed(s.requests[p])
    case Report(p, _) => p in s.requests && (s.requests[p].Admitted? || s.requests[p].Probing?)
    case Abandon(p) => p in s.requests && !s.requests[p].Finished?
  }

  // One clock reading or Redis call. The last result says whether it wrote to one of the two keys that
  // decide the state; the counts after a snapshot's prunings change nothing and are not steps.
  function Advance(r: Rule, ph: Phase, k: Circuit, now: real): (Phase, Circuit, bool)
    requires CanProceed(ph)
  {
    match ph
    case Idle => (Asking(now), k, false)
    case Asking(asOf) =>
      (SawOpenUntil(asOf, OpenUntil(k.openUntil, now)), k.(openUntil := Cleanup(k.openUntil, now)), false)
    case SawOpenUntil(asOf, openUntil) =>
      var state := StateOf(asOf, openUntil, Value(k.probe, now).Some?);
      (match state case CLOSED => Admitted case OPEN => Rejected case HALF_OPEN => HalfOpen,
       k.(probe := Cleanup(k.probe, now)), false)
    case HalfOpen =>
      var (ok, k') := TryProbe(r, k, now);
      (if ok then Probing(now) else Rejected, k', ok)
    case ReadyToReopen(_, openUntil) => (Reopening(openUntil), ReopenDelete(k), true)
    case Reopening(openUntil) => (PruningFailures, ReopenSet(k, openUntil, now), true)
    case PruningFailures => (PruningTotals, PruneFailures(r, k, now), false)
    case PruningTotals => (Finished, PruneTotals(r, k, now), false)
    case Closing => (Finished, CloseSet(k, now), true)
  }

  function Next(r: Rule, s: State, m: Move): State
    requires Enabled(s, m)
  {
    match m
    case Tick(seconds) => s.(now := s.now + seconds)
    case Arrive(p) => s.(requests := s.requests[p := Idle])
    case Abandon(p) => s.(requests := s.requests[p := Abandoned])
    case Proceed(p) =>
      var (after, k, wrote) := Advance(r, s.requests[p], s.circuit, s.now);
      s.(circuit := k, requests := s.requests[p := after], lastWrite := if wrote then s.now else s.lastWrite)
    case Report(p, failure) =>
      if s.requests[p].Admitted? then
        var (result, k) := RecordOutcome(r, s.circuit, failure, |s.log|, s.now);
        s.(circuit := k, requests := s.requests[p := Finished], lastWrite := if result.tripped then s.now
          else s.lastWrite,
           log := s.log + [Sample(s.now, failure)])
      else if failure then
        s.(requests := s.requests[p := ReadyToReopen(s.requests[p].since, s.now + r.openTimeout as real)])
      else
        s.(circuit := CloseDelete(s.circuit), requests := s.requests[p := Closing], lastWrite := s.now, log := [])
  }

  // ---- The methods of one breaker are paths of these steps ----

  // The four steps of allow_request at one instant come to what Admit says.
  lemma AllowIsDriven(r: Rule, k: Circuit, now: real)
    requires now >= 0.0
    ensures
      var (asking, k1, _) := Advance(r, Idle, k, now);
      var (saw, k2, _) := Advance(r, asking, k1, now);
      var (state, k3, _) := Advance(r, saw, k2, now);
      var a := Admit(r, k, now);
      match state
      case Admitted => a.allowed && !a.acquired && Tidy(k3, now) == Tidy(a.circuit, now)
      case Rejected => !a.allowed && Tidy(k3, now) == Tidy(a.circuit, now)
      case HalfOpen =>
        var (end, k4, _) := Advance(r, state, k3, now);
        && a.allowed == a.acquired == end.Probing? && (end.Probing? || end.Rejected?)
        && Tidy(k4, now) == Tidy(a.circuit, now)
      case _ => false
  {
  }

  // A probe's success is two steps, and an error before the second leaves what the first left.
  lemma SuccessIsDriven(r: Rule, s: State, p: nat)
    requires Enabled(s, Report(p, false)) && s.requests[p].Probing?
    ensures
      var half := Next(r, s, Report(p, false));
      var whole := Next(r, half, Proceed(p));
      && half.circuit == Tidied(ClosedByProbe(s.circuit, s.now, Some(2)), s.circuit)
      && whole.circuit == ClosedByProbe(s.circuit, s.now, None)
  {
  }

  // Up to an expired open_until, which the read before the deletion drops.
  function Tidied(k: Circuit, before: Circuit): Circuit { k.(openUntil := before.openUntil) }

  // The first n commands of a failing probe's report.
  function AfterSteps(r: Rule, s: State, p: nat, n: nat): State
    requires Enabled(s, Report(p, true)) && s.requests[p].Probing? && n <= 4
    ensures n == 0 ==>
      AfterSteps(r, s, p, n).requests ==
      s.requests[p := ReadyToReopen(s.requests[p].since, s.now + r.openTimeout as real)]
    ensures n == 1 ==> AfterSteps(r, s, p, n).requests == s.requests[p := Reopening(s.now + r.openTimeout as real)]
    ensures n == 2 ==> AfterSteps(r, s, p, n).requests == s.requests[p := PruningFailures]
    ensures n == 3 ==> AfterSteps(r, s, p, n).requests == s.requests[p := PruningTotals]
    ensures AfterSteps(r, s, p, n).now == s.now
    ensures AfterSteps(r, s, p, n).circuit == ReopenedByProbe(r, s.circuit, s.now, Some(n))
  {
    if n == 0 then Next(r, s, Report(p, true)) else Next(r, AfterSteps(r, s, p, n - 1), Proceed(p))
  }

  // A probe's failure is four steps; an error at command n leaves what the steps before it left.
  lemma FailureIsDriven(r: Rule, s: State, p: nat, n: nat)
    requires Enabled(s, Report(p, true)) && s.requests[p].Probing? && n <= 4
    ensures AfterSteps(r, s, p, n).circuit == ReopenedByProbe(r, s.circuit, s.now, Some(n))
    ensures AfterSteps(r, s, p, 4).circuit == ReopenedByProbe(r, s.circuit, s.now, None)
  {
  }

  const INITIAL := State(0.0, NewCircuit(), map[], 0.0, [])

  predicate Possible(r: Rule, run: Run)
    decreases run, 0
  {
    run.Then? ==> Possible(r, run.before) && Enabled(Exec(r, run.before), run.move)
  }

  function Exec(r: Rule, run: Run): State
    requires Possible(r, run)
    decreases run, 1
  {
    match run
    case Begin => INITIAL
    case Then(before, move) => Next(r, Exec(r, before), move)
  }

  // ---- One probe at a time ----

  // A request that acquired the probe, has not begun to report and has not been abandoned.
  predicate Holds(s: State, p: nat) {
    p in s.requests && (s.requests[p].Probing? || s.requests[p].ReadyToReopen?)
  }

  ghost predicate Timely(r: Rule, s: State) {
    forall p | Holds(s, p) :: s.now <= s.requests[p].since + r.probeTtl as real
  }

  ghost predicate TimelyRun(r: Rule, run: Run)
    requires Possible(r, run)
  {
    Timely(r, Exec(r, run)) && (run.Then? ==> TimelyRun(r, run.before))
  }

  ghost predicate ProbeHeld(r: Rule, s: State) {
    && (forall p | Holds(s, p) ::
          s.circuit.probe.value.Some? && s.circuit.probe.expires == Some(s.requests[p].since + r.probeTtl as real))
    && (forall p, q | Holds(s, p) && Holds(s, q) :: p == q)
  }

  lemma ProbeHeldOnProceed(r: Rule, s: State, p: nat)
    requires ProbeHeld(r, s) && Timely(r, s) && Enabled(s, Proceed(p))
    ensures ProbeHeld(r, Next(r, s, Proceed(p)))
  {
    var t := Next(r, s, Proceed(p));
    forall q | Holds(t, q) && q != p ensures Holds(s, q) {
    }
  }

  lemma ProbeHeldNext(r: Rule, s: State, m: Move)
    requires ProbeHeld(r, s) && Timely(r, s) && Enabled(s, m)
    ensures ProbeHeld(r, Next(r, s, m))
  {
    if m.Proceed? {
      ProbeHeldOnProceed(r, s, m.pid);
    } else {
      var t := Next(r, s, m);
      assert m.Report? && s.requests[m.pid].Probing? ==> Holds(s, m.pid);
      assert forall q :: Holds(t, q) ==> Holds(s, q);
    }
  }

  lemma {:induction false} ProbeHeldOfRun(r: Rule, run: Run)
    requires Possible(r, run) && TimelyRun(r, run)
    ensures ProbeHeld(r, Exec(r, run))
  {
    if run.Then? {
      ProbeHeldOfRun(r, run.before);
      ProbeHeldNext(r, Exec(r, run.before), run.move);
    }
  }

  // As long as every probe reports within its lease or is abandoned, no two requests probe at once.
  lemma OneProbe(r: Rule, run: Run, p: nat, q: nat)
    requires Possible(r, run) && TimelyRun(r, run)
    requires Holds(Exec(r, run), p) && Holds(Exec(r, run), q)
    ensures p == q
  {
    ProbeHeldOfRun(r, run);
  }

  // ---- The breaker never wedges ----

  ghost predicate Leased(r: Rule, s: State) {
    && 0.0 <= s.lastWrite <= s.now
    && s.circuit.openUntil.expires == None
    && (s.circuit.openUntil.value.Some? ==> s.circuit.openUntil.value.value <= s.lastWrite + r.openTimeout as real)
    && (s.circuit.probe.value.Some? ==>
          s.circuit.probe.expires.Some? && s.circuit.probe.expires.value <= s.lastWrite + r.probeTtl as real)
    && (forall p | p in s.requests && (s.requests[p].ReadyToReopen? || s.requests[p].Reopening?) ::
          s.requests[p].openUntil <= s.now + r.openTimeout as real)
  }

  lemma LeasedOnProceed(r: Rule, s: State, p: nat)
    requires Leased(r, s) && Enabled(s, Proceed(p))
    ensures Leased(r, Next(r, s, Proceed(p)))
  {
  }

  lemma LeasedNext(r: Rule, s: State, m: Move)
    requires Leased(r, s) && Enabled(s, m)
    ensures Leased(r, Next(r, s, m))
  {
    if m.Proceed? {
      LeasedOnProceed(r, s, m.pid);
    }
  }

  lemma {:induction false} LeasedOfRun(r: Rule, run: Run)
    requires Possible(r, run)
    ensures Leased(r, Exec(r, run))
  {
    if run.Then? {
      LeasedOfRun(r, run.before);
      LeasedNext(r, Exec(r, run.before), run.move);
    }
  }

  // After any run, abandoned probes and half-done closes included, a request that comes later than the
  // last write to one of the two deciding keys by more than both timeouts is let through. Outcomes that
  // open nothing do not postpone that.
  lemma NeverWedges(r: Rule, run: Run, now: real)
    requires Possible(r, run)
    requires now > Exec(r, run).lastWrite + r.openTimeout as real && now > Exec(r, run).lastWrite + r.probeTtl as real
    ensures Admit(r, Exec(r, run).circuit, now).allowed
  {
    LeasedOfRun(r, run);
  }

  // The same for the four steps of allow_request, however much time passes between them.
  lemma NeverWedgesStepwise(r: Rule, run: Run, t0: real, t1: real, t2: real, t3: real)
    requires Possible(r, run)
    requires t0 > Exec(r, run).lastWrite + r.openTimeout as real && t0 > Exec(r, run).lastWrite + r.probeTtl as real
    requires t0 <= t1 <= t2 <= t3
    ensures
      var (asking, k1, _) := Advance(r, Idle, Exec(r, run).circuit, t0);
      var (saw, k2, _) := Advance(r, asking, k1, t1);
      var (state, k3, _) := Advance(r, saw, k2, t2);
      state.Admitted? || (state.HalfOpen? && Advance(r, state, k3, t3).0.Probing?)
  {
    LeasedOfRun(r, run);
  }

  // ---- Nobody passes an open circuit ----

  // ext goes on after run, and no step in between finishes a write of one of these kinds.
  ghost predicate Without(r: Rule, run: Run, ext: Run, writes: Phase -> bool)
    requires Possible(r, ext)
  {
    ext == run ||
    (ext.Then? && Without(r, run, ext.before, writes)
      && (ext.move.Proceed? ==> !writes(Exec(r, ext.before).requests[ext.move.pid])))
  }

  predicate Closes(ph: Phase) { ph.Closing? }
  predicate ClosesOrReopens(ph: Phase) { ph.Closing? || ph.Reopening? }

  // The move is an outcome that opens the circuit.
  predicate Trip(r: Rule, s: State, m: Move) {
    Enabled(s, m) && m.Report? && s.requests[m.pid].Admitted?
    && RecordOutcome(r, s.circuit, m.failure, |s.log|, s.now).0.tripped
  }

  // The move is the write with which a failed probe opens the circuit again.
  predicate Reopen(s: State, m: Move) {
    Enabled(s, m) && m.Proceed? && s.requests[m.pid].Reopening?
  }

  // The request has not read open_until yet.
  predicate HasNotRead(s: State, p: nat) {
    p in s.requests ==> s.requests[p].Idle? || s.requests[p].Asking?
  }

  // Instants that probes are going to write lie in the future of time 0.
  ghost predicate Positive(s: State) {
    forall p | p in s.requests && (s.requests[p].ReadyToReopen? || s.requests[p].Reopening?) ::
      s.requests[p].openUntil > 0.0
  }

  lemma PositiveNext(r: Rule, s: State, m: Move)
    requires Positive(s) && s.now >= 0.0 && Enabled(s, m)
    ensures Positive(Next(r, s, m))
  {
  }

  lemma {:induction false} PositiveOfRun(r: Rule, run: Run)
    requires Possible(r, run)
    ensures Positive(Exec(r, run))
  {
    if run.Then? {
      PositiveOfRun(r, run.before);
      LeasedOfRun(r, run.before);
      PositiveNext(r, Exec(r, run.before), run.move);
    }
  }

  ghost predicate Shut(s: State, p: nat) {
    && Positive(s) && s.now >= 0.0
    && s.circuit.openUntil.expires == None && s.circuit.openUntil.value.Some? && s.circuit.openUntil.value.value > 0.0
    && (p in s.requests ==>
      !s.requests[p].Admitted? && (s.requests[p].SawOpenUntil? ==> s.requests[p].openUntil > 0.0))
  }

  lemma ShutNext(r: Rule, s: State, m: Move, p: nat)
    requires Shut(s, p) && Enabled(s, m) && (m.Proceed? ==> !Closes(s.requests[m.pid]))
    ensures Shut(Next(r, s, m), p)
  {
  }

  lemma {:induction false} ShutOfRun(r: Rule, run: Run, ext: Run, p: nat)
    requires Possible(r, ext) && Possible(r, run) && Without(r, run, ext, Closes) && Shut(Exec(r, run), p)
    ensures Shut(Exec(r, ext), p)
  {
    if ext != run {
      ShutOfRun(r, run, ext.before, p);
      ShutNext(r, Exec(r, ext.before), ext.move, p);
    }
  }

  // From an opening, be it a trip or a failed probe, until a close is finished, no request that reads
  // open_until is let through as if the circuit were closed: only probes pass.
  lemma NobodyPassesUntilAClose(r: Rule, run: Run, m: Move, ext: Run, p: nat)
    requires Possible(r, Then(run, m)) && (Trip(r, Exec(r, run), m) || Reopen(Exec(r, run), m))
    requires Possible(r, ext) && Without(r, Then(run, m), ext, Closes)
    requires HasNotRead(Exec(r, Then(run, m)), p)
    ensures p in Exec(r, ext).requests ==> !Exec(r, ext).requests[p].Admitted?
  {
    LeasedOfRun(r, run);
    PositiveOfRun(r, run);
    PositiveOfRun(r, Then(run, m));
    ShutOfRun(r, Then(run, m), ext, p);
  }

  ghost predicate ShutUntil(s: State, p: nat, until: real) {
    && s.circuit.openUntil.expires == None && s.circuit.openUntil.value.Some?
    && s.circuit.openUntil.value.value >= until
    && (s.now < until && p in s.requests ==>
      match s.requests[p]
      case Idle => true
      case Asking(asOf) => asOf <= s.now
      case SawOpenUntil(asOf, openUntil) => asOf <= s.now && openUntil >= until
      case Rejected => true
      case Abandoned => true
      case _ => false)
  }

  lemma ShutUntilNext(r: Rule, s: State, m: Move, p: nat, until: real)
    requires ShutUntil(s, p, until) && Enabled(s, m) && (m.Proceed? ==> !ClosesOrReopens(s.requests[m.pid]))
    ensures ShutUntil(Next(r, s, m), p, until)
  {
  }

  lemma {:induction false} ShutUntilOfRun(r: Rule, run: Run, ext: Run, p: nat, until: real)
    requires Possible(r, ext) && Possible(r, run) && Without(r, run, ext, ClosesOrReopens)
    requires ShutUntil(Exec(r, run), p, until)
    ensures ShutUntil(Exec(r, ext), p, until)
  {
    if ext != run {
      ShutUntilOfRun(r, run, ext.before, p, until);
      ShutUntilNext(r, Exec(r, ext.before), ext.move, p, until);
    }
  }

  // Nobody reads the clock ahead of time.
  lemma {:induction false} AskedInThePast(r: Rule, run: Run, p: nat)
    requires Possible(r, run) && p in Exec(r, run).requests && Exec(r, run).requests[p].Asking?
    ensures Exec(r, run).requests[p].asOf <= Exec(r, run).now
  {
    var s := Exec(r, run.before);
    if p in s.requests && s.requests[p].Asking? {
      AskedInThePast(r, run.before, p);
    }
  }

  // For a whole timeout after a trip, such a request is not even a probe: it is turned away, unless a probe
  // that was still out closes or reopens the circuit.
  lemma TurnedAwayForTheTimeout(r: Rule, run: Run, m: Move, ext: Run, p: nat)
    requires Possible(r, Then(run, m)) && Trip(r, Exec(r, run), m)
    requires Possible(r, ext) && Without(r, Then(run, m), ext, ClosesOrReopens)
    requires HasNotRead(Exec(r, Then(run, m)), p) && p in Exec(r, ext).requests
    requires Exec(r, ext).now < Exec(r, run).now + r.openTimeout as real
    ensures var ph := Exec(r, ext).requests[p];
            ph.Idle? || ph.Asking? || ph.SawOpenUntil? || ph.Rejected? || ph.Abandoned?
  {
    LeasedOfRun(r, run);
    var t := Exec(r, Then(run, m));
    if p in t.requests && t.requests[p].Asking? {
      AskedInThePast(r, Then(run, m), p);
    }
    ShutUntilOfRun(r, Then(run, m), ext, p, Exec(r, run).now + r.openTimeout as real);
  }

  // ---- The windows in every interleaving ----

  ghost predicate Tracked(r: Rule, s: State) {
    WindowsTrack(r, s.circuit, s.log, s.now)
  }

  lemma OtherStepsKeepWindows(r: Rule, ph: Phase, k: Circuit, now: real)
    requires CanProceed(ph) && !ph.PruningFailures? && !ph.PruningTotals?
    ensures Advance(r, ph, k, now).1.failures == k.failures && Advance(r, ph, k, now).1.totals == k.totals
  {
  }

  lemma TrackedOnProceed(r: Rule, s: State, p: nat)
    requires Tracked(r, s) && Enabled(s, Proceed(p))
    ensures Tracked(r, Next(r, s, Proceed(p)))
  {
    var ph := s.requests[p];
    if ph.PruningFailures? {
      PruneFailuresCounts(r, s.circuit, s.log, s.now);
    } else if ph.PruningTotals? {
      PruneTotalsCounts(r, s.circuit, s.log, s.now);
    } else {
      OtherStepsKeepWindows(r, ph, s.circuit, s.now);
    }
  }

  lemma TrackedNext(r: Rule, s: State, m: Move)
    requires Tracked(r, s) && Enabled(s, m)
    ensures Tracked(r, Next(r, s, m))
  {
    match m
    case Tick(seconds) => WindowsTrackLater(r, s.circuit, s.log, s.now, s.now + seconds);
    case Report(p, failure) =>
      if s.requests[p].Admitted? {
        RecordKeepsTrack(r, s.circuit, s.log, failure, s.now);
      } else if !failure {
        CloseClearsHistory(r, s.circuit, s.now);
      }
    case Proceed(p) => TrackedOnProceed(r, s, p);
    case _ =>
  }

  lemma {:induction false} TrackedOfRun(r: Rule, run: Run)
    requires Possible(r, run)
    ensures Tracked(r, Exec(r, run))
  {
    if run.Then? {
      TrackedOfRun(r, run.before);
      TrackedNext(r, Exec(r, run.before), run.move);
    } else {
      assert Counted([], 0.0 - Window(r), true) == {} && Counted([], 0.0 - Window(r), false) == {};
    }
  }

  // In every interleaving a recorded outcome sees exactly the outcomes of the trailing window since the
  // last close, and opens the circuit by them.
  lemma OutcomesCountHistory(r: Rule, run: Run, failure: bool)
    requires Possible(r, run)
    ensures
      var s := Exec(r, run);
      var result := RecordOutcome(r, s.circuit, failure, |s.log|, s.now).0;
      var counts := HistoryCounts(r, s.log + [Sample(s.now, failure)], s.now);
      && result.counts == counts && counts.failures <= counts.totals
      && (result.tripped <==>
        && counts.totals >= r.minRequests && counts.failures as real / counts.totals as real >= r.threshold
        && OpenUntil(s.circuit.openUntil, s.now) <= s.now)
  {
    TrackedOfRun(r, run);
    LeasedOfRun(r, run);
    var s := Exec(r, run);
    RecordCountsHistory(r, s.circuit, s.log, failure, s.now);
    RecordTripsByHistory(r, s.circuit, s.log, failure, s.now);
  }
}

// chaos_service/store.py: the idempotency record of one key, the pieces of
// reserve and wait as one request executes them, and the methods themselves.

module IdempotencyStore {
  import opened Options
  import opened Redis

  // An empty fingerprint is a record without one, such as a bare order id left by an older release.
  datatype Record =
    | Processing(token: nat, fp: string, createdAt: int)
    | Success(fp: string, orderId: string, status: int)
    | Failed(fp: string, error: string, status: int)

  datatype RawConfig = Config(pendingTtl: int, ttl: int, waitTimeoutMs: int, pollMs: int)

  // What validate_resilience_config in chaos_service/resilience/__init__.py lets through.
  type Config = c: RawConfig | c.pendingTtl >= 1 && c.ttl >= 1 && c.waitTimeoutMs >= 0 && c.pollMs >= 1
    witness Config(15, 300, 120, 10)

  predicate Stale(c: Config, r: Record, now: real) {
    r.Processing? && now - r.createdAt as real >= c.pendingTtl as real
  }

  datatype Verdict =
    | Nothing
    | Mismatch(record: Record)
    | Terminal(record: Record)
    | Outdated(record: Record)
    | Live(record: Record)

  // A loaded record as seen by a request with fingerprint fp.
  function Judge(c: Config, seen: Option<Record>, fp: string, now: real): Verdict {
    match seen
    case None => Nothing
    case Some(r) =>
      if r.fp != "" && r.fp != fp then Mismatch(r)
      else if !r.Processing? then Terminal(r)
      else if Stale(c, r, now) then Outdated(r)
      else Live(r)
  }

  datatype Reply = Reply(status: int, orderId: string, error: string, idempotent: bool)

  function BuildReplayResponse(r: Record): Reply {
    match r
    case Success(_, orderId, _) => Reply(200, orderId, "", true)
    case Failed(_, error, status) => Reply(if status != 0 then status else 503, "", error, true)
    case Processing(_, _, _) => Reply(202, "", "", true)
  }

  datatype Outcome =
    | Replayed(record: Record)
    | Conflicted(record: Record)
    | StillPending
    | Queued
    | Rejected(status: int)
    | Created(orderId: string)
    | Crashed

  // Where one request stands between two of its clock readings and Redis calls.
  datatype Phase =
    | Start(fp: string)
    | Built(record: Record, again: bool)
    | Reading(fp: string, again: bool)
    | Judging(fp: string, seen: Option<Record>, again: bool)
    | Taking(fp: string, stale: Record)
    | Rebuilding(fp: string)
    | Waiting(fp: string)
    | Polling(fp: string, deadline: real)
    | PollReading(fp: string, deadline: real)
    | PollJudging(fp: string, deadline: real, seen: Option<Record>)
    | LastReading(fp: string)
    | LastJudging(fp: string, seen: Option<Record>)
    | Owner(record: Record)
    | FailedOpen(fp: string)
    | Done(outcome: Outcome)

  predicate InStore(ph: Phase) { !ph.Owner? && !ph.FailedOpen? && !ph.Done? }

  function WaitDeadline(c: Config, now: real): real {
    now + c.waitTimeoutMs as real / 1000.0
  }

  function PollSeconds(c: Config): real {
    c.pollMs as real / 1000.0
  }

  // The next clock reading or Redis call of a request inside reserve or wait.
  function Resume(c: Config, ph: Phase, cell: Entry<Record>, now: real, token: nat): (Phase, Entry<Record>) {
    match ph
    case Start(fp) => (Built(Processing(token, fp, now.Floor), false), cell)
    case Rebuilding(fp) => (Built(Processing(token, fp, now.Floor), true), cell)
    case Built(rec, again) =>
      var (ok, e) := SetNxEx(cell, rec, c.pendingTtl as real, now);
      (if ok then Owner(rec) else Reading(rec.fp, again), e)
    case Reading(fp, again) => (Judging(fp, Value(cell, now), again), Cleanup(cell, now))
    case Judging(fp, seen, again) =>
      (match Judge(c, seen, fp, now)
       case Mismatch(r) => Done(Conflicted(r))
       case Terminal(r) => Done(Replayed(r))
       case Outdated(r) => if again then Waiting(fp) else Taking(fp, r)
       case _ => Waiting(fp), cell)
    case Taking(fp, stale) =>
      var (deleted, e) := CompareAndDelete(cell, stale, now);
      (if deleted then Rebuilding(fp) else Reading(fp, true), e)
    case Waiting(fp) => (Polling(fp, WaitDeadline(c, now)), cell)
    case Polling(fp, deadline) => (if now < deadline then PollReading(fp, deadline) else LastReading(fp), cell)
    case PollReading(fp, deadline) => (PollJudging(fp, deadline, Value(cell, now)), Cleanup(cell, now))
    case PollJudging(fp, deadline, seen) =>
      (match Judge(c, seen, fp, now)
       case Mismatch(r) => Done(Conflicted(r))
       case Terminal(r) => Done(Replayed(r))
       case Live(_) => Polling(fp, deadline)
       case _ => Done(StillPending), cell)
    case LastReading(fp) => (LastJudging(fp, Value(cell, now)), Cleanup(cell, now))
    case LastJudging(fp, seen) =>
      (match Judge(c, seen, fp, now)
       case Mismatch(r) => Done(Conflicted(r))
       case Terminal(r) => Done(Replayed(r))
       case _ => Done(StillPending), cell)
    case _ => (ph, cell)
  }

  // The ways create_order leaves once it may run the order; a lost write raised StorageException.
  datatype Exit =
    | Finalize(orderId: string)
    | FinalizeLost(orderId: string)
    | Fail(error: string, status: int)
    | FailLost(status: int)
    | TimeOut
    | TimeOutLost

  // Only an owner records a failure or releases; both owners and fail-open requests finalize.
  function Leave(c: Config, ph: Phase, cell: Entry<Record>, now: real, x: Exit): (Phase, Entry<Record>)
    requires ph.Owner? || ph.FailedOpen?
  {
    var fp := if ph.Owner? then ph.record.fp else ph.fp;
    match x
    case Finalize(orderId) => (Done(Created(orderId)), SetEx(cell, Success(fp, orderId, 201), c.ttl as real, now))
    case FinalizeLost(orderId) => (Done(Created(orderId)), cell)
    case Fail(error, status) =>
      (Done(Rejected(status)), if ph.Owner? then SetEx(cell, Failed(fp, error, status), c.ttl as real, now) else cell)
    case FailLost(status) => (Done(Rejected(status)), cell)
    case TimeOut => (Done(Queued), if ph.Owner? then CompareAndDelete(cell, ph.record, now).1 else cell)
    case TimeOutLost => (Done(Queued), cell)
  }

  // What the clock, the uuid source and the other clients have made of the key when a request
  // takes its next step.
  datatype World = World(now: real, cell: Entry<Record>, token: nat)

  // The phase of a request after its first k steps, each in its own world.
  function Drive(c: Config, ph: Phase, env: nat -> World, k: nat): Phase {
    if k == 0 then ph
    else Resume(c, Drive(c, ph, env, k - 1), env(k - 1).cell, env(k - 1).now, env(k - 1).token).0
  }

  // The clock never runs backwards.
  predicate Before(env: nat -> World, i: nat, j: nat) {
    env(i).now <= env(j).now
  }

  ghost predicate Orderly(env: nat -> World) {
    forall i: nat, j: nat :: i <= j ==> Before(env, i, j)
  }

  datatype Reservation = Owned(record: Record) | Replay(record: Record) | Conflict(record: Record) | Pending | Gone

  // The phase in which a request goes on after reserve or wait has answered.
  function After(r: Reservation, fp: string, waited: bool): Phase {
    match r
    case Owned(rec) => Owner(rec)
    case Replay(rec) => Done(Replayed(rec))
    case Conflict(rec) => Done(Conflicted(rec))
    case _ => if waited then Done(StillPending) else Waiting(fp)
  }

  // The answer a loaded record forces: another payload's record first, then a terminal one.
  function Settled(seen: Option<Record>, fp: string): Option<Reservation> {
    if seen.None? then None
    else if seen.value.fp != "" && seen.value.fp != fp then Some(Conflict(seen.value))
    else if !seen.value.Processing? then Some(Replay(seen.value))
    else None
  }

  // What reserve answers and after how many steps, written as the source nests it.
  function ReserveOutcome(c: Config, fp: string, env: nat -> World): (Reservation, nat) {
    var pending := Processing(env(0).token, fp, env(0).now.Floor);
    if SetNxEx(env(1).cell, pending, c.pendingTtl as real, env(1).now).0 then (Owned(pending), 2)
    else FoundOutcome(c, fp, env, 2)
  }

  // Step k loads a record that settles nothing, and step k + 1 finds it stale.
  predicate LoadsStale(c: Config, fp: string, env: nat -> World, k: nat) {
    var seen := Value(env(k).cell, env(k).now);
    Settled(seen, fp).None? && seen.Some? && Stale(c, seen.value, env(k + 1).now)
  }

  // From step k on: the key is taken and its record is loaded and judged.
  function FoundOutcome(c: Config, fp: string, env: nat -> World, k: nat): (Reservation, nat) {
    if LoadsStale(c, fp, env, k) then TakeOverOutcome(c, fp, Value(env(k).cell, env(k).now).value, env, k + 2)
    else Look(fp, env, k)
  }

  function TakeOverOutcome(c: Config, fp: string, stale: Record, env: nat -> World, k: nat): (Reservation, nat) {
    if CompareAndDelete(env(k).cell, stale, env(k).now).0 then RebuildOutcome(c, fp, env, k + 1)
    else Look(fp, env, k + 1)
  }

  function RebuildOutcome(c: Config, fp: string, env: nat -> World, k: nat): (Reservation, nat) {
    var pending := Processing(env(k).token, fp, env(k).now.Floor);
    if SetNxEx(env(k + 1).cell, pending, c.pendingTtl as real, env(k + 1).now).0 then (Owned(pending), k + 2)
    else Look(fp, env, k + 2)
  }

  function Look(fp: string, env: nat -> World, k: nat): (Reservation, nat) {
    var settled := Settled(Value(env(k).cell, env(k).now), fp);
    (if settled.Some? then settled.value else Pending, k + 2)
  }

  // What the key holds right after each step of the same paths.
  function ReserveTrail(c: Config, fp: string, env: nat -> World): seq<Entry<Record>> {
    var pending := Processing(env(0).token, fp, env(0).now.Floor);
    var (ok, e) := SetNxEx(env(1).cell, pending, c.pendingTtl as real, env(1).now);
    if ok then [env(0).cell, e] else [env(0).cell, e] + FoundTrail(c, fp, env, 2)
  }

  function FoundTrail(c: Config, fp: string, env: nat -> World, k: nat): seq<Entry<Record>> {
    if LoadsStale(c, fp, env, k)
    then LookTrail(env, k) + TakeOverTrail(c, fp, Value(env(k).cell, env(k).now).value, env, k + 2)
    else LookTrail(env, k)
  }

  function TakeOverTrail(c: Config, fp: string, stale: Record, env: nat -> World, k: nat): seq<Entry<Record>> {
    var (deleted, e) := CompareAndDelete(env(k).cell, stale, env(k).now);
    if deleted then [e] + RebuildTrail(c, fp, env, k + 1) else [e] + LookTrail(env, k + 1)
  }

  function RebuildTrail(c: Config, fp: string, env: nat -> World, k: nat): seq<Entry<Record>> {
    var pending := Processing(env(k).token, fp, env(k).now.Floor);
    var (ok, e) := SetNxEx(env(k + 1).cell, pending, c.pendingTtl as real, env(k + 1).now);
    if ok then [env(k).cell, e] else [env(k).cell, e] + LookTrail(env, k + 2)
  }

  function LookTrail(env: nat -> World, k: nat): seq<Entry<Record>> {
    [Cleanup(env(k).cell, env(k).now), env(k + 1).cell]
  }

  // The shape of the pieces, as the methods below run them.
  lemma RebuildSplits(c: Config, fp: string, env: nat -> World, k: nat)
    ensures
      var pending := Processing(env(k).token, fp, env(k).now.Floor);
      var (ok, e) := SetNxEx(env(k + 1).cell, pending, c.pendingTtl as real, env(k + 1).now);
      && RebuildOutcome(c, fp, env, k).1 >= k + 2 && [env(k).cell, e] <= RebuildTrail(c, fp, env, k)
      && (ok ==>
        (RebuildOutcome(c, fp, env, k), RebuildTrail(c, fp, env, k)) == ((Owned(pending), k + 2), [env(k).cell, e]))
  {
  }

  lemma TakeOverSplits(c: Config, fp: string, stale: Record, env: nat -> World, k: nat)
    ensures
      var (deleted, e) := CompareAndDelete(env(k).cell, stale, env(k).now);
      var (outcome, full) := (TakeOverOutcome(c, fp, stale, env, k), TakeOverTrail(c, fp, stale, env, k));
      && outcome.1 > k
      && (deleted ==> outcome == RebuildOutcome(c, fp, env, k + 1) && full == [e] + RebuildTrail(c, fp, env, k + 1))
      && (!deleted ==> outcome == Look(fp, env, k + 1) && full == [e] + LookTrail(env, k + 1))
  {
  }

  lemma FoundSplits(c: Config, fp: string, env: nat -> World, k: nat)
    ensures FoundOutcome(c, fp, env, k).1 >= k + 2 && LookTrail(env, k) <= FoundTrail(c, fp, env, k)
    ensures !LoadsStale(c, fp, env, k) ==>
        FoundOutcome(c, fp, env, k) == Look(fp, env, k) && FoundTrail(c, fp, env, k) == LookTrail(env, k)
  {
  }

  // The same for a request that moves by the protocol's steps.
  function Trail(c: Config, ph: Phase, env: nat -> World, n: nat): seq<Entry<Record>> {
    seq(n, (j: nat) => Resume(c, Drive(c, ph, env, j), env(j).cell, env(j).now, env(j).token).1)
  }

  // ---- The nested code follows the protocol's steps ----

  // A sequence of phases whose step k is a step of the protocol.
  predicate Moves(c: Config, env: nat -> World, path: nat -> Phase, k: nat) {
    path(k + 1) == Resume(c, path(k), env(k).cell, env(k).now, env(k).token).0
  }

  ghost predicate Follows(c: Config, env: nat -> World, path: nat -> Phase) {
    forall k: nat :: Moves(c, env, path, k)
  }

  ghost predicate Stays(path: nat -> Phase, k: nat, n: nat) {
    forall e: nat | k <= e < n :: InStore(path(e))
  }

  // From step k on the key is left as `full` says.
  ghost predicate Leaves(c: Config, env: nat -> World, path: nat -> Phase, k: nat, full: seq<Entry<Record>>) {
    forall j: nat | j < |full| ::
      full[j] == Resume(c, path(k + j), env(k + j).cell, env(k + j).now, env(k + j).token).1
  }

  // From step k on the request is inside the store until `outcome` is reached, leaving the key as `full` says.
  ghost predicate Takes(c: Config, fp: string, env: nat -> World, path: nat -> Phase, k: nat,
      outcome: (Reservation, nat), full: seq<Entry<Record>>)
  {
    && outcome.1 == k + |full| && path(outcome.1) == After(outcome.0, fp, false)
    && Stays(path, k, outcome.1) && Leaves(c, env, path, k, full)
  }

  lemma LeavesAfter(c: Config, env: nat -> World, path: nat -> Phase, k: nat, before: seq<Entry<Record>>,
      full: seq<Entry<Record>>)
    requires Leaves(c, env, path, k, before) && Leaves(c, env, path, k + |before|, full)
    ensures Leaves(c, env, path, k, before + full)
  {
    forall j: nat | j < |before + full|
      ensures (before + full)[j] == Resume(c, path(k + j), env(k + j).cell, env(k + j).now, env(k + j).token).1
    {
      if j >= |before| {
        assert full[j - |before|] == (before + full)[j];
      }
    }
  }

  lemma TakesAfter(c: Config, fp: string, env: nat -> World, path: nat -> Phase, k: nat, before: seq<Entry<Record>>,
      outcome: (Reservation, nat), full: seq<Entry<Record>>)
    requires Stays(path, k, k + |before|) && Leaves(c, env, path, k, before)
    requires Takes(c, fp, env, path, k + |before|, outcome, full)
    ensures Takes(c, fp, env, path, k, outcome, before + full)
  {
    LeavesAfter(c, env, path, k, before, full);
  }

  lemma LookMoves(c: Config, fp: string, again: bool, env: nat -> World, path: nat -> Phase, k: nat)
    requires Follows(c, env, path) && path(k) == Reading(fp, again)
    ensures path(k + 1) == Judging(fp, Value(env(k).cell, env(k).now), again)
    ensures Stays(path, k, k + 2) && Leaves(c, env, path, k, LookTrail(env, k))
  {
    assert Moves(c, env, path, k);
  }

  lemma LookTakes(c: Config, fp: string, env: nat -> World, path: nat -> Phase, k: nat)
    requires Follows(c, env, path) && path(k) == Reading(fp, true)
    ensures Takes(c, fp, env, path, k, Look(fp, env, k), LookTrail(env, k))
  {
    LookMoves(c, fp, true, env, path, k);
    assert Moves(c, env, path, k + 1);
  }

  lemma BuildMoves(c: Config, fp: string, again: bool, env: nat -> World, path: nat -> Phase, k: nat)
    requires Follows(c, env, path) && path(k) == if again then Rebuilding(fp) else Start(fp)
    ensures
      var pending := Processing(env(k).token, fp, env(k).now.Floor);
      var (ok, e) := SetNxEx(env(k + 1).cell, pending, c.pendingTtl as real, env(k + 1).now);
      && path(k + 2) == (if ok then Owner(pending) else Reading(fp, again))
      && Stays(path, k, k + 2) && Leaves(c, env, path, k, [env(k).cell, e])
  {
    assert Moves(c, env, path, k) && Moves(c, env, path, k + 1);
  }

  lemma RebuildTakes(c: Config, fp: string, env: nat -> World, path: nat -> Phase, k: nat)
    requires Follows(c, env, path) && path(k) == Rebuilding(fp)
    ensures Takes(c, fp, env, path, k, RebuildOutcome(c, fp, env, k), RebuildTrail(c, fp, env, k))
  {
    var pending := Processing(env(k).token, fp, env(k).now.Floor);
    var (ok, e) := SetNxEx(env(k + 1).cell, pending, c.pendingTtl as real, env(k + 1).now);
    BuildMoves(c, fp, true, env, path, k);
    if !ok {
      LookTakes(c, fp, env, path, k + 2);
      TakesAfter(c, fp, env, path, k, [env(k).cell, e], Look(fp, env, k + 2), LookTrail(env, k + 2));
    }
  }

  lemma TakeMoves(c: Config, fp: string, stale: Record, env: nat -> World, path: nat -> Phase, k: nat)
    requires Follows(c, env, path) && path(k) == Taking(fp, stale)
    ensures
      var (deleted, e) := CompareAndDelete(env(k).cell, stale, env(k).now);
      && path(k + 1) == (if deleted then Rebuilding(fp) else Reading(fp, true))
      && Stays(path, k, k + 1) && Leaves(c, env, path, k, [e])
  {
    assert Moves(c, env, path, k);
  }

  lemma TakeOverTakes(c: Config, fp: string, stale: Record, env: nat -> World, path: nat -> Phase, k: nat)
    requires Follows(c, env, path) && path(k) == Taking(fp, stale)
    ensures Takes(c, fp, env, path, k, TakeOverOutcome(c, fp, stale, env, k), TakeOverTrail(c, fp, stale, env, k))
  {
    var (deleted, e) := CompareAndDelete(env(k).cell, stale, env(k).now);
    TakeMoves(c, fp, stale, env, path, k);
    if deleted {
      RebuildTakes(c, fp, env, path, k + 1);
      TakesAfter(c, fp, env, path, k, [e], RebuildOutcome(c, fp, env, k + 1), RebuildTrail(c, fp, env, k + 1));
    } else {
      LookTakes(c, fp, env, path, k + 1);
      TakesAfter(c, fp, env, path, k, [e], Look(fp, env, k + 1), LookTrail(env, k + 1));
    }
  }

  lemma FoundTakes(c: Config, fp: string, env: nat -> World, path: nat -> Phase, k: nat)
    requires Follows(c, env, path) && path(k) == Reading(fp, false)
    ensures Takes(c, fp, env, path, k, FoundOutcome(c, fp, env, k), FoundTrail(c, fp, env, k))
  {
    LookMoves(c, fp, false, env, path, k);
    assert Moves(c, env, path, k + 1);
    if LoadsStale(c, fp, env, k) {
      var stale := Value(env(k).cell, env(k).now).value;
      TakeOverTakes(c, fp, stale, env, path, k + 2);
      TakesAfter(c, fp, env, path, k, LookTrail(env, k), TakeOverOutcome(c, fp, stale, env, k + 2),
        TakeOverTrail(c, fp, stale, env, k + 2));
    }
  }

  lemma ReserveTakes(c: Config, fp: string, env: nat -> World, path: nat -> Phase)
    requires Follows(c, env, path) && path(0) == Start(fp)
    ensures Takes(c, fp, env, path, 0, ReserveOutcome(c, fp, env), ReserveTrail(c, fp, env))
  {
    var pending := Processing(env(0).token, fp, env(0).now.Floor);
    var (ok, e) := SetNxEx(env(1).cell, pending, c.pendingTtl as real, env(1).now);
    BuildMoves(c, fp, false, env, path, 0);
    if !ok {
      FoundTakes(c, fp, env, path, 2);
      TakesAfter(c, fp, env, path, 0, [env(0).cell, e], FoundOutcome(c, fp, env, 2), FoundTrail(c, fp, env, 2));
    }
  }

  // The phases of one request.
  function Path(c: Config, ph: Phase, env: nat -> World): nat -> Phase {
    (k: nat) => Drive(c, ph, env, k)
  }

  lemma PathFollows(c: Config, ph: Phase, env: nat -> World)
    ensures Follows(c, env, Path(c, ph, env))
  {
  }

  // The nested code of reserve is one path through the phases: what holds of every interleaving
  // of requests that move phase by phase holds of requests that run it.
  lemma ReserveIsDriven(c: Config, fp: string, env: nat -> World)
    ensures
      var (r, n) := ReserveOutcome(c, fp, env);
      Drive(c, Start(fp), env, n) == After(r, fp, false)
    // Until it answers, reserve is inside the store.
    ensures forall e: nat :: e < ReserveOutcome(c, fp, env).1 ==> InStore(Drive(c, Start(fp), env, e))
  {
    var path := Path(c, Start(fp), env);
    PathFollows(c, Start(fp), env);
    ReserveTakes(c, fp, env, path);
    forall e: nat | e < ReserveOutcome(c, fp, env).1
      ensures InStore(Drive(c, Start(fp), env, e))
    {
      assert InStore(path(e));
    }
  }

  // And it leaves on the key, step by step, what those steps leave.
  lemma ReserveTrailIsDriven(c: Config, fp: string, env: nat -> World)
    ensures ReserveTrail(c, fp, env) == Trail(c, Start(fp), env, ReserveOutcome(c, fp, env).1)
  {
    PathFollows(c, Start(fp), env);
    ReserveTakes(c, fp, env, Path(c, Start(fp), env));
  }

  // The step at which poll m of a wait that began with step i compares the clock with the deadline.
  function PollStep(i: nat, m: nat): nat { i + 1 + 3 * m }

  // The clock moves by at least the polling interval between a poll and the next.
  predicate SleepsAfter(c: Config, env: nat -> World, i: nat, m: nat) {
    env(PollStep(i, m + 1)).now >= env(PollStep(i, m)).now + PollSeconds(c)
  }

  // A poll that starts before the deadline and finds a live record of the same payload settles nothing.
  predicate FindsLive(c: Config, fp: string, deadline: real, env: nat -> World, k: nat) {
    && env(k).now < deadline
    && Judge(c, Value(env(k + 1).cell, env(k + 1).now), fp, env(k + 2).now).Live?
  }

  predicate KeepsPolling(c: Config, fp: string, deadline: real, env: nat -> World, i: nat, m: nat) {
    FindsLive(c, fp, deadline, env, PollStep(i, m))
  }

  function PollAnswer(fp: string, deadline: real, env: nat -> World, k: nat): Reservation {
    var settled := Settled(Value(env(k + 1).cell, env(k + 1).now), fp);
    if settled.Some? then settled.value else if env(k).now < deadline then Gone else Pending
  }

  lemma PollIsDriven(c: Config, fp: string, deadline: real, env: nat -> World, path: nat -> Phase, k: nat)
    requires Follows(c, env, path) && path(k) == Polling(fp, deadline)
    ensures Stays(path, k, k + 3)
    ensures path(k + 3) == if FindsLive(c, fp, deadline, env, k) then Polling(fp, deadline)
              else After(PollAnswer(fp, deadline, env, k), fp, true)
  {
    assert Moves(c, env, path, k) && Moves(c, env, path, k + 1) && Moves(c, env, path, k + 2);
  }

  // The loop of wait is a path through the polling phases, and until it answers it is inside the store.
  lemma {:induction false} WaitIsDriven(c: Config, fp: string, env: nat -> World, path: nat -> Phase, i: nat,
      polls: nat)
    requires Follows(c, env, path) && path(i) == Waiting(fp)
    requires forall m: nat | m < polls :: KeepsPolling(c, fp, WaitDeadline(c, env(i).now), env, i, m)
    ensures
      var deadline := WaitDeadline(c, env(i).now);
      var k := PollStep(i, polls);
      && Stays(path, i, k + 3) && path(k) == Polling(fp, deadline)
      && path(k + 3) ==
        if KeepsPolling(c, fp, deadline, env, i, polls) then Polling(fp, deadline)
          else After(PollAnswer(fp, deadline, env, k), fp, true)
  {
    if polls == 0 {
      assert Moves(c, env, path, i);
    } else {
      WaitIsDriven(c, fp, env, path, i, polls - 1);
    }
    PollIsDriven(c, fp, WaitDeadline(c, env(i).now), env, path, PollStep(i, polls));
  }

  // The steps between two polls of a wait that goes on are far enough apart; nothing else is slow.
  ghost predicate Sleeps(c: Config, fp: string, env: nat -> World, i: nat) {
    forall m: nat :: KeepsPolling(c, fp, WaitDeadline(c, env(i).now), env, i, m) ==> SleepsAfter(c, env, i, m)
  }

  lemma SleepAdvances(c: Config, fp: string, env: nat -> World, i: nat, m: nat)
    requires Sleeps(c, fp, env, i) && KeepsPolling(c, fp, WaitDeadline(c, env(i).now), env, i, m)
    ensures env(PollStep(i, m + 1)).now >= env(PollStep(i, m)).now + 0.001
  {
    assert SleepsAfter(c, env, i, m);
  }

  // Polling goes on exactly while the timeout lasts and a reservation of the same payload is seen that is not stale.
  lemma PollsWhileProcessing(c: Config, fp: string, env: nat -> World, i: nat, polls: nat)
    ensures
      var k := PollStep(i, polls);
      var cell := env(k + 1).cell;
      KeepsPolling(c, fp, WaitDeadline(c, env(i).now), env, i, polls) <==>
      && env(k).now < env(i).now + c.waitTimeoutMs as real / 1000.0
      && Lives(cell, env(k + 1).now) && cell.value.value.Processing?
      && (cell.value.value.fp == "" || cell.value.value.fp == fp)
      && env(k + 2).now - cell.value.value.createdAt as real < c.pendingTtl as real
  {
  }

  // A wait that ends undecided has lasted its whole timeout. One that finds the reservation gone has not, and
  // the key then held nothing or a stale reservation.
  lemma WaitLasts(c: Config, fp: string, env: nat -> World, i: nat, polls: nat)
    requires !KeepsPolling(c, fp, WaitDeadline(c, env(i).now), env, i, polls)
    ensures
      var k := PollStep(i, polls);
      var answer, waited := PollAnswer(fp, WaitDeadline(c, env(i).now), env, k), env(k).now - env(i).now;
      && (answer.Pending? ==> waited >= c.waitTimeoutMs as real / 1000.0)
      && (answer.Gone? ==>
        && waited < c.waitTimeoutMs as real / 1000.0
        && (Lives(env(k + 1).cell, env(k + 1).now) ==>
          var seen := env(k + 1).cell.value.value;
          seen.Processing? && env(k + 2).now - seen.createdAt as real >= c.pendingTtl as real))
  {
  }

  lemma Milliseconds(x: int, y: int)
    ensures (x + y) as real / 1000.0 == x as real / 1000.0 + y as real / 1000.0
    ensures x as real / 1000.0 < y as real / 1000.0 <==> x < y
  {
  }

  // All polls but the last fit into the timeout, an interval each.
  lemma {:induction false} PollsAreBounded(c: Config, fp: string, env: nat -> World, i: nat, polls: nat)
    requires Orderly(env) && Sleeps(c, fp, env, i)
    requires forall m: nat | m < polls :: KeepsPolling(c, fp, WaitDeadline(c, env(i).now), env, i, m)
    ensures env(PollStep(i, polls)).now >= env(i).now + (polls * c.pollMs) as real / 1000.0
    ensures polls > 0 ==> (polls - 1) * c.pollMs < c.waitTimeoutMs
  {
    if polls == 0 {
      assert Before(env, i, i + 1);
    } else {
      PollsAreBounded(c, fp, env, i, polls - 1);
      assert KeepsPolling(c, fp, WaitDeadline(c, env(i).now), env, i, polls - 1);
      assert SleepsAfter(c, env, i, polls - 1);
      assert polls * c.pollMs == (polls - 1) * c.pollMs + c.pollMs;
      Milliseconds((polls - 1) * c.pollMs, c.pollMs);
      Milliseconds((polls - 1) * c.pollMs, c.waitTimeoutMs);
    }
  }

  // An exception strikes at one of the steps from, ..., to - 1, before the step has any effect.
  predicate Strikes(error: Option<nat>, from: nat, to: nat) {
    error.Some? && from <= error.value < to
  }

  class Store {
    const config: Config
    const redis: FakeRedis<string, Record>

    constructor (config: Config, redis: FakeRedis<string, Record>)
      ensures this.config == config && this.redis == redis
    {
      this.config, this.redis := config, redis;
    }

    method Load(key: string) returns (seen: Option<Record>)
      modifies redis
      ensures redis.Others(key)
      ensures seen == Value(old(redis.At(key)), redis.time) && redis.time == old(redis.time)
      ensures redis.At(key) == Cleanup(old(redis.At(key)), redis.time)
    {
      seen := redis.Get(key);
    }

    // Steps k and k + 1: build the pending record, then SET NX EX.
    method ReserveNewProcessing(key: string, fp: string, env: nat -> World, k: nat, error: Option<nat>)
      returns (raised: bool, ok: bool, pending: Record, ghost trail: seq<Entry<Record>>)
      requires Orderly(env) && redis.time <= env(k).now
      modifies redis
      ensures redis.Others(key)
      ensures raised <==> Strikes(error, k, k + 2)
      ensures pending == Processing(env(k).token, fp, env(k).now.Floor)
      ensures !raised ==>
        (ok, redis.At(key)) == SetNxEx(env(k + 1).cell, pending, config.pendingTtl as real, env(k + 1).now)
        && redis.time == env(k + 1).now && trail == [env(k).cell, redis.At(key)]
      ensures raised ==> redis.time <= env(error.value).now && trail == [env(k).cell][..error.value - k]
    {
      pending, trail, ok := Processing(env(k).token, fp, env(k).now.Floor), [], false;
      if error == Some(k) {
        return true, ok, pending, trail;
      }
      redis.Interfere(key, env(k).now, env(k).cell);
      trail := trail + [redis.At(key)];
      assert Before(env, k, k + 1);
      if error == Some(k + 1) {
        return true, ok, pending, trail;
      }
      redis.Interfere(key, env(k + 1).now, env(k + 1).cell);
      ok := redis.SetIfAbsent(key, pending, config.pendingTtl as real);
      trail := trail + [redis.At(key)];
      raised := false;
    }

    // A piece of reserve that begins with step k and has `outcome`: it answers after n steps, or raises at
    // step n, and step by step it leaves the key as `full` says.
    ghost predicate Answers(key: string, env: nat -> World, k: nat, outcome: (Reservation, nat),
        full: seq<Entry<Record>>, error: Option<nat>, r: Option<Reservation>, n: nat, trail: seq<Entry<Record>>)
      reads redis
    {
      && (r.None? <==> Strikes(error, k, outcome.1))
      && (r.None? ==> n == error.value && redis.time <= env(n).now)
      && (r.Some? ==> (r.value, n) == outcome && n > k && redis.time == env(n - 1).now)
      && |trail| == n - k && trail <= full
      && (r.Some? ==> redis.At(key) == trail[n - k - 1])
      && (r.Some? && r.value.Owned? ==> Value(redis.At(key), redis.time) == Some(r.value.record))
    }

    // Steps that went before.
    lemma AnswersAfter(key: string, env: nat -> World, k: nat, before: seq<Entry<Record>>, outcome: (Reservation, nat),
        full: seq<Entry<Record>>, error: Option<nat>, r: Option<Reservation>, n: nat, trail: seq<Entry<Record>>)
      requires !Strikes(error, k, k + |before|)
      requires Answers(key, env, k + |before|, outcome, full, error, r, n, trail)
      ensures Answers(key, env, k, outcome, before + full, error, r, n, before + trail)
    {
    }

    method Reserve(key: string, fp: string, env: nat -> World, error: Option<nat>)
      returns (r: Option<Reservation>, n: nat, ghost trail: seq<Entry<Record>>)
      requires Orderly(env) && redis.time <= env(0).now
      modifies redis
      ensures redis.Others(key)
      ensures Answers(key, env, 0, ReserveOutcome(config, fp, env), ReserveTrail(config, fp, env), error, r, n, trail)
    {
      var raised, reserved, pending;
      raised, reserved, pending, trail := ReserveNewProcessing(key, fp, env, 0, error);
      if raised {
        return None, error.value, trail;
      }
      if reserved {
        return Some(Owned(pending)), 2, trail;
      }
      assert Before(env, 1, 2);
      ghost var rest;
      r, n, rest := JudgeExisting(key, fp, env, 2, error);
      AnswersAfter(key, env, 0, trail, FoundOutcome(config, fp, env, 2), FoundTrail(config, fp, env, 2), error, r, n,
        rest);
      trail := trail + rest;
    }

    // From step k on: the key is taken.
    method JudgeExisting(key: string, fp: string, env: nat -> World, k: nat, error: Option<nat>)
      returns (r: Option<Reservation>, n: nat, ghost trail: seq<Entry<Record>>)
      requires Orderly(env) && redis.time <= env(k).now
      modifies redis
      ensures redis.Others(key)
      ensures Answers(key, env, k, FoundOutcome(config, fp, env, k), FoundTrail(config, fp, env, k), error, r, n,
                trail)
    {
      FoundSplits(config, fp, env, k);
      var raised, existing;
      raised, existing, trail := LoadAndJudge(key, env, k, error);
      if raised {
        return None, error.value, trail;
      }
      var settled := Settled(existing, fp);
      if settled.Some? || existing.None? || !Stale(config, existing.value, redis.time) {
        return Some(if settled.Some? then settled.value else Pending), k + 2, trail;
      }
      assert Before(env, k + 1, k + 2);
      ghost var rest;
      r, n, rest := TakeOver(key, fp, existing.value, env, k + 2, error);
      AnswersAfter(key, env, k, trail, TakeOverOutcome(config, fp, existing.value, env, k + 2),
        TakeOverTrail(config, fp, existing.value, env, k + 2), error, r, n, rest);
      trail := trail + rest;
    }

    // The branch of reserve for an expired record.
    method TakeOver(key: string, fp: string, stale: Record, env: nat -> World, k: nat, error: Option<nat>)
      returns (r: Option<Reservation>, n: nat, ghost trail: seq<Entry<Record>>)
      requires Orderly(env) && redis.time <= env(k).now
      modifies redis
      ensures redis.Others(key)
      ensures Answers(key, env, k, TakeOverOutcome(config, fp, stale, env, k),
                TakeOverTrail(config, fp, stale, env, k), error, r, n, trail)
    {
      TakeOverSplits(config, fp, stale, env, k);
      trail := [];
      if error == Some(k) {
        return None, k, trail;
      }
      var deleted := DeleteIfStill(key, stale, env, k);
      trail := [redis.At(key)];
      assert Before(env, k, k + 1);
      ghost var rest;
      if deleted {
        r, n, rest := Rebuild(key, fp, env, k + 1, error);
        AnswersAfter(key, env, k, trail, RebuildOutcome(config, fp, env, k + 1), RebuildTrail(config, fp, env, k + 1),
          error, r, n, rest);
      } else {
        r, n, rest := LookAgain(key, fp, env, k + 1, error);
        AnswersAfter(key, env, k, trail, Look(fp, env, k + 1), LookTrail(env, k + 1), error, r, n, rest);
      }
      trail := trail + rest;
    }

    // Step k: compare and delete.
    method DeleteIfStill(key: string, stale: Record, env: nat -> World, k: nat) returns (deleted: bool)
      requires redis.time <= env(k).now
      modifies redis
      ensures redis.Others(key)
      ensures (deleted, redis.At(key)) == CompareAndDelete(env(k).cell, stale, env(k).now)
      ensures redis.time == env(k).now
    {
      redis.Interfere(key, env(k).now, env(k).cell);
      deleted := redis.DelIfEqual(key, stale);
    }

    // The record was deleted: reserve again.
    method Rebuild(key: string, fp: string, env: nat -> World, k: nat, error: Option<nat>)
      returns (r: Option<Reservation>, n: nat, ghost trail: seq<Entry<Record>>)
      requires Orderly(env) && redis.time <= env(k).now
      modifies redis
      ensures redis.Others(key)
      ensures Answers(key, env, k, RebuildOutcome(config, fp, env, k), RebuildTrail(config, fp, env, k), error, r, n,
                trail)
    {
      RebuildSplits(config, fp, env, k);
      var raised, reserved, pending;
      raised, reserved, pending, trail := ReserveNewProcessing(key, fp, env, k, error);
      if raised {
        return None, error.value, trail;
      }
      if reserved {
        return Some(Owned(pending)), k + 2, trail;
      }
      assert Before(env, k + 1, k + 2);
      ghost var rest;
      r, n, rest := LookAgain(key, fp, env, k + 2, error);
      AnswersAfter(key, env, k, trail, Look(fp, env, k + 2), LookTrail(env, k + 2), error, r, n, rest);
      trail := trail + rest;
    }

    // The last two steps of that branch.
    method LookAgain(key: string, fp: string, env: nat -> World, k: nat, error: Option<nat>)
      returns (r: Option<Reservation>, n: nat, ghost trail: seq<Entry<Record>>)
      requires Orderly(env) && redis.time <= env(k).now
      modifies redis
      ensures redis.Others(key)
      ensures Answers(key, env, k, Look(fp, env, k), LookTrail(env, k), error, r, n, trail)
    {
      var raised, existing;
      raised, existing, trail := LoadAndJudge(key, env, k, error);
      if raised {
        return None, error.value, trail;
      }
      var settled := Settled(existing, fp);
      r, n := Some(if settled.Some? then settled.value else Pending), k + 2;
    }

    // Polls until the record decides the request or the deadline passes, and then reads once more.
    method WaitForResult(key: string, fp: string, env: nat -> World, i: nat, error: Option<nat>)
      returns (r: Option<Reservation>, polls: nat)
      requires Orderly(env) && redis.time <= env(i).now && !Strikes(error, 0, i)
      requires Sleeps(config, fp, env, i)
      modifies redis
      ensures redis.Others(key)
      ensures forall m: nat | m < polls :: KeepsPolling(config, fp, WaitDeadline(config, env(i).now), env, i, m)
      ensures r.None? ==> Strikes(error, i, PollStep(i, polls) + 3) && redis.time <= env(error.value).now
      ensures r.Some? ==>
        && !Strikes(error, i, PollStep(i, polls) + 3)
        && !KeepsPolling(config, fp, WaitDeadline(config, env(i).now), env, i, polls)
        && r.value == PollAnswer(fp, WaitDeadline(config, env(i).now), env, PollStep(i, polls))
        && redis.time == env(PollStep(i, polls) + 2).now && redis.At(key) == env(PollStep(i, polls) + 2).cell
    {
      polls := 0;
      if error == Some(i) {
        return None, polls;
      }
      var deadline, k := WaitDeadline(config, env(i).now), i + 1;
      assert Before(env, i, k);
      redis.Interfere(key, env(k).now, env(k).cell);
      while redis.time < deadline
        invariant redis.Others(key)
        invariant k == PollStep(i, polls) && redis.time == env(k).now && !Strikes(error, 0, k)
        invariant redis.time >= env(i).now + polls as real * 0.001
        invariant forall m: nat | m < polls :: KeepsPolling(config, fp, deadline, env, i, m)
        decreases config.waitTimeoutMs - polls
      {
        var raised, answer := PollOnce(key, fp, deadline, env, k, error);
        if raised {
          return None, polls;
        }
        if answer.Some? {
          return answer, polls;
        }
        SleepAdvances(config, fp, env, i, polls);
        assert Before(env, k + 2, k + 3);
        polls, k := polls + 1, k + 3;
        redis.Interfere(key, env(k).now, env(k).cell);
      }
      r := LastLook(key, fp, deadline, env, k, error);
    }

    // After the deadline.
    method LastLook(key: string, fp: string, deadline: real, env: nat -> World, k: nat, error: Option<nat>)
      returns (r: Option<Reservation>)
      requires Orderly(env) && redis.time == env(k).now && deadline <= redis.time
      modifies redis
      ensures redis.Others(key)
      ensures r.None? <==> Strikes(error, k, k + 3)
      ensures r.None? ==> redis.time <= env(error.value).now
      ensures r.Some? ==> r.value == PollAnswer(fp, deadline, env, k)
      ensures r.Some? ==> redis.time == env(k + 2).now && redis.At(key) == env(k + 2).cell
    {
      if error == Some(k) {
        return None;
      }
      assert Before(env, k, k + 1);
      var raised, current, look := LoadAndJudge(key, env, k + 1, error);
      if raised {
        return None;
      }
      var settled := Settled(current, fp);
      r := Some(if settled.Some? then settled.value else Pending);
    }

    // One turn of the loop: None to sleep and poll again.
    method PollOnce(key: string, fp: string, deadline: real, env: nat -> World, k: nat, error: Option<nat>)
      returns (raised: bool, answer: Option<Reservation>)
      requires Orderly(env) && redis.time == env(k).now && redis.time < deadline
      modifies redis
      ensures redis.Others(key)
      ensures raised <==> Strikes(error, k, k + 3)
      ensures raised ==> redis.time <= env(error.value).now
      ensures !raised ==> (answer.None? <==> FindsLive(config, fp, deadline, env, k))
      ensures !raised && answer.Some? ==> answer.value == PollAnswer(fp, deadline, env, k)
      ensures !raised ==> redis.time == env(k + 2).now && redis.At(key) == env(k + 2).cell
    {
      if error == Some(k) {
        return true, None;
      }
      assert Before(env, k, k + 1);
      var current;
      ghost var look;
      raised, current, look := LoadAndJudge(key, env, k + 1, error);
      if raised {
        return true, None;
      }
      if current.None? {
        return false, Some(Gone);
      }
      var settled := Settled(current, fp);
      if settled.Some? {
        return false, settled;
      }
      answer := if Stale(config, current.value, redis.time) then Some(Gone) else None;
    }

    // Steps k and k + 1: load the record, and reach the instant at which it is judged.
    method LoadAndJudge(key: string, env: nat -> World, k: nat, error: Option<nat>)
      returns (raised: bool, seen: Option<Record>, ghost trail: seq<Entry<Record>>)
      requires Orderly(env) && redis.time <= env(k).now
      modifies redis
      ensures redis.Others(key)
      ensures raised <==> Strikes(error, k, k + 2)
      ensures raised ==> redis.time <= env(error.value).now && trail == LookTrail(env, k)[..error.value - k]
      ensures !raised ==> seen == Value(env(k).cell, env(k).now) && trail == LookTrail(env, k)
      ensures !raised ==> redis.time == env(k + 1).now && redis.At(key) == env(k + 1).cell
    {
      trail, seen := [], None;
      if error == Some(k) {
        return true, seen, trail;
      }
      redis.Interfere(key, env(k).now, env(k).cell);
      seen := Load(key);
      trail := [redis.At(key)];
      assert Before(env, k, k + 1);
      if error == Some(k + 1) {
        return true, seen, trail;
      }
      redis.Interfere(key, env(k + 1).now, env(k + 1).cell);
      trail := trail + [redis.At(key)];
      raised := false;
    }

    method FinalizeSuccess(key: string, fp: string, orderId: string)
      modifies redis
      ensures redis.Others(key)
      ensures redis.At(key) == SetEx(old(redis.At(key)), Success(fp, orderId, 201), config.ttl as real, redis.time)
      ensures redis.time == old(redis.time)
    {
      redis.SetExpiring(key, config.ttl as real, Success(fp, orderId, 201));
    }

    method SaveFailed(key: string, fp: string, error: string, status: int)
      modifies redis
      ensures redis.Others(key)
      ensures redis.At(key) == SetEx(old(redis.At(key)), Failed(fp, error, status), config.ttl as real, redis.time)
      ensures redis.time == old(redis.time)
    {
      redis.SetExpiring(key, config.ttl as real, Failed(fp, error, status));
    }

    method Release(key: string, record: Record) returns (deleted: bool)
      modifies redis
      ensures redis.Others(key)
      ensures (deleted, redis.At(key)) == CompareAndDelete(old(redis.At(key)), record, redis.time)
      ensures redis.time == old(redis.time)
    {
      deleted := redis.DelIfEqual(key, record);
    }
  }
}

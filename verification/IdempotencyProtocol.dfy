// Any number of create_order requests racing on one idempotency key. A run interleaves the
// clock readings and Redis calls of all requests with the passing of time.

module IdempotencyProtocol {
  import opened Options
  import opened Redis
  import opened IdempotencyStore

  datatype Event =
    | Reserved(pid: nat, at: real)
    | Finalized(pid: nat, at: real, fp: string, orderId: string)
    | FailureSaved(pid: nat, at: real, fp: string, error: string, status: int)
    | Loaded(pid: nat, at: real, seen: Option<Record>)
    | Deleted(token: nat)

  datatype State = State(now: real, cell: Entry<Record>, requests: map<nat, Phase>, nextToken: nat, log: seq<Event>)

  datatype Move =
    | Tick(seconds: real)
    | Arrive(pid: nat, fp: string)
    | Proceed(pid: nat)
    | StoreError(pid: nat)
    | Crash(pid: nat)
    | Quit(pid: nat, exit: Exit)

  datatype Run = Begin | Then(before: Run, move: Move)

  predicate Enabled(s: State, m: Move) {
    match m
    case Tick(seconds) => seconds >= 0.0
    case Arrive(p, _) => p !in s.requests
    case Proceed(p) => p in s.requests && InStore(s.requests[p])
    case StoreError(p) => p in s.requests && InStore(s.requests[p])
    case Crash(p) => p in s.requests && !s.requests[p].Done?
    case Quit(p, _) => p in s.requests && (s.requests[p].Owner? || s.requests[p].FailedOpen?)
  }

  function FpOf(ph: Phase): string {
    match ph
    case Built(r, _) => r.fp
    case Owner(r) => r.fp
    case Done(_) => ""
    case _ => ph.fp
  }

  // What the history records about one step from ph to after, which found the cell as given.
  function ProceedEvents(p: nat, ph: Phase, after: Phase, cell: Entry<Record>, now: real): seq<Event> {
    if ph.Built? && after.Owner? then [Reserved(p, now)]
    else if ph.Reading? || ph.PollReading? || ph.LastReading? then [Loaded(p, now, Value(cell, now))]
    else if ph.Taking? && after.Rebuilding? && ph.stale.Processing? then [Deleted(ph.stale.token)]
    else []
  }

  function QuitEvents(p: nat, ph: Phase, x: Exit, cell: Entry<Record>, now: real): seq<Event> {
    if x.Finalize? then [Finalized(p, now, FpOf(ph), x.orderId)]
    else if x.Fail? && ph.Owner? then [FailureSaved(p, now, FpOf(ph), x.error, x.status)]
    else if x.TimeOut? && ph.Owner? && ph.record.Processing? && CompareAndDelete(cell, ph.record, now).0
      then [Deleted(ph.record.token)]
    else []
  }

  function Next(c: Config, s: State, m: Move): State
    requires Enabled(s, m)
  {
    match m
    case Tick(seconds) => s.(now := s.now + seconds)
    case Arrive(p, fp) => s.(requests := s.requests[p := Start(fp)])
    case Proceed(p) =>
      var ph := s.requests[p];
      var (after, cell) := Resume(c, ph, s.cell, s.now, s.nextToken);
      s.(cell := cell, requests := s.requests[p := after], nextToken := s.nextToken + 1,
         log := s.log + ProceedEvents(p, ph, after, s.cell, s.now))
    case StoreError(p) => s.(requests := s.requests[p := FailedOpen(FpOf(s.requests[p]))])
    case Crash(p) => s.(requests := s.requests[p := Done(Crashed)])
    case Quit(p, x) =>
      var ph := s.requests[p];
      var (after, cell) := Leave(c, ph, s.cell, s.now, x);
      s.(cell := cell, requests := s.requests[p := after], log := s.log + QuitEvents(p, ph, x, s.cell, s.now))
  }

  const INITIAL := State(0.0, Missing(), map[], 0, [])

  predicate Possible(c: Config, r: Run)
    decreases r, 0
  {
    r.Then? ==> Possible(c, r.before) && Enabled(Exec(c, r.before), r.move)
  }

  function Exec(c: Config, r: Run): State
    requires Possible(c, r)
    decreases r, 1
  {
    match r
    case Begin => INITIAL
    case Then(before, move) => Next(c, Exec(c, before), move)
  }

  // The hypotheses of the exclusivity theorems.

  // Every request that owns the key is still younger than the pending TTL, counted from the
  // floored second it stamped on its record.
  ghost predicate Timely(c: Config, s: State) {
    forall p | p in s.requests && s.requests[p].Owner? :: !Stale(c, s.requests[p].record, s.now)
  }

  ghost predicate TimelyRun(c: Config, r: Run)
    requires Possible(c, r)
  {
    Timely(c, Exec(c, r)) && (r.Then? ==> TimelyRun(c, r.before))
  }

  // No reserve and no wait raises StorageException.
  predicate NoStoreError(r: Run) {
    r.Then? ==> !r.move.StoreError? && NoStoreError(r.before)
  }

  // No terminal write of a successful order is lost.
  predicate FinalizeSucceeds(r: Run) {
    r.Then? ==> !(r.move.Quit? && r.move.exit.FinalizeLost?) && FinalizeSucceeds(r.before)
  }

  // Invariants of every run, with no hypothesis.

  function TokenOf(ph: Phase): Option<nat> {
    if (ph.Built? || ph.Owner?) && ph.record.Processing? then Some(ph.record.token) else None
  }

  predicate PhaseOk(c: Config, s: State, ph: Phase) {
    match ph
    case Built(r, _) => r.Processing? && r.token < s.nextToken && Deleted(r.token) !in s.log
    case Owner(r) => r.Processing? && r.token < s.nextToken
    case Taking(_, r) => Stale(c, r, s.now)
    case _ => true
  }

  ghost predicate Tokens(c: Config, s: State) {
    && (forall p | p in s.requests :: PhaseOk(c, s, s.requests[p]))
    && (forall p, q | p in s.requests && q in s.requests && p != q && TokenOf(s.requests[p]).Some? ::
          TokenOf(s.requests[p]) != TokenOf(s.requests[q]))
    && (s.cell.value.Some? && s.cell.value.value.Processing? ==>
          s.cell.value.value.token < s.nextToken && Deleted(s.cell.value.value.token) !in s.log)
    && (forall p | p in s.requests && s.requests[p].Built? && s.cell.value.Some? && s.cell.value.value.Processing? ::
          s.cell.value.value.token != s.requests[p].record.token)
    && (forall i | 0 <= i < |s.log| && s.log[i].Deleted? :: s.log[i].token < s.nextToken)
    && (forall i, j | 0 <= i < j < |s.log| && s.log[i].Deleted?
      && s.log[j].Deleted? :: s.log[i].token != s.log[j].token)
  }

  // A request that builds a record takes the next token.
  lemma TokensBuilt(c: Config, s: State, p: nat, rec: Record, again: bool)
    requires Tokens(c, s) && p in s.requests && rec.Processing? && rec.token == s.nextToken
    ensures Tokens(c, s.(requests := s.requests[p := Built(rec, again)], nextToken := s.nextToken + 1))
  {
  }

  lemma TokensOnBuild(c: Config, s: State, p: nat)
    requires Tokens(c, s) && Enabled(s, Proceed(p)) && (s.requests[p].Start? || s.requests[p].Rebuilding?)
    ensures Tokens(c, Next(c, s, Proceed(p)))
  {
    var rec := Processing(s.nextToken, s.requests[p].fp, s.now.Floor);
    TokensBuilt(c, s, p, rec, s.requests[p].Rebuilding?);
    assert s.log + [] == s.log;
  }

  lemma TokensOnReserve(c: Config, s: State, p: nat)
    requires Tokens(c, s) && Enabled(s, Proceed(p)) && s.requests[p].Built?
    ensures Tokens(c, Next(c, s, Proceed(p)))
  {
  }

  // A request that ends up without a token, and a cell that at most lost its content.
  lemma TokensKept(c: Config, s: State, t: State, p: nat)
    requires Tokens(c, s) && p in s.requests
    requires t.now == s.now && t.nextToken >= s.nextToken && p in t.requests
        && t.requests == s.requests[p := t.requests[p]]
    requires !t.requests[p].Built? && !t.requests[p].Owner? && PhaseOk(c, t, t.requests[p])
    requires t.cell.value == None || t.cell.value == s.cell.value || !t.cell.value.value.Processing?
    requires t.log == s.log || exists e: Event :: !e.Deleted? && t.log == s.log + [e]
    ensures Tokens(c, t)
  {
  }

  // A request that ends up without a token after deleting the reservation on the key.
  lemma TokensDeleted(c: Config, s: State, t: State, p: nat, rec: Record)
    requires Tokens(c, s) && p in s.requests && s.cell.value == Some(rec) && rec.Processing?
    requires t.now == s.now && t.nextToken >= s.nextToken && p in t.requests
        && t.requests == s.requests[p := t.requests[p]]
    requires !t.requests[p].Built? && !t.requests[p].Owner? && PhaseOk(c, t, t.requests[p])
    requires t.cell.value == None && t.log == s.log + [Deleted(rec.token)]
    ensures Tokens(c, t)
  {
  }

  lemma TokensOnTake(c: Config, s: State, p: nat)
    requires Tokens(c, s) && Enabled(s, Proceed(p)) && s.requests[p].Taking?
    ensures Tokens(c, Next(c, s, Proceed(p)))
  {
    var t, stale := Next(c, s, Proceed(p)), s.requests[p].stale;
    assert PhaseOk(c, s, s.requests[p]);
    if CompareAndDelete(s.cell, stale, s.now).0 {
      TokensDeleted(c, s, t, p, stale);
    } else {
      TokensKept(c, s, t, p);
    }
  }

  lemma TokensOnRead(c: Config, s: State, p: nat)
    requires Tokens(c, s) && Enabled(s, Proceed(p))
    requires var ph := s.requests[p]; !ph.Start? && !ph.Rebuilding? && !ph.Built? && !ph.Taking?
    ensures Tokens(c, Next(c, s, Proceed(p)))
  {
    TokensKept(c, s, Next(c, s, Proceed(p)), p);
  }

  lemma TokensOnQuit(c: Config, s: State, p: nat, x: Exit)
    requires Tokens(c, s) && Enabled(s, Quit(p, x))
    ensures Tokens(c, Next(c, s, Quit(p, x)))
  {
    var t, ph := Next(c, s, Quit(p, x)), s.requests[p];
    if x.TimeOut? && ph.Owner? && CompareAndDelete(s.cell, ph.record, s.now).0 {
      assert PhaseOk(c, s, ph);
      TokensDeleted(c, s, t, p, ph.record);
    } else {
      TokensKept(c, s, t, p);
    }
  }

  lemma TokensOnProceed(c: Config, s: State, p: nat)
    requires Tokens(c, s) && Enabled(s, Proceed(p))
    ensures Tokens(c, Next(c, s, Proceed(p)))
  {
    var ph := s.requests[p];
    if ph.Start? || ph.Rebuilding? { TokensOnBuild(c, s, p); }
    else if ph.Built? { TokensOnReserve(c, s, p); }
    else if ph.Taking? { TokensOnTake(c, s, p); }
    else { TokensOnRead(c, s, p); }
  }

  lemma TokensNext(c: Config, s: State, m: Move)
    requires Tokens(c, s) && Enabled(s, m)
    ensures Tokens(c, Next(c, s, m))
  {
    match m
    case Proceed(p) => TokensOnProceed(c, s, p);
    case Quit(p, x) => TokensOnQuit(c, s, p, x);
    case StoreError(p) => TokensKept(c, s, Next(c, s, m), p);
    case Crash(p) => TokensKept(c, s, Next(c, s, m), p);
    case _ =>
  }

  lemma {:induction false} TokensOfRun(c: Config, r: Run)
    requires Possible(c, r)
    ensures Tokens(c, Exec(c, r))
  {
    if r.Then? {
      TokensOfRun(c, r.before);
      TokensNext(c, Exec(c, r.before), r.move);
    }
  }

  // Why a live record is no longer what the key holds after a move.
  datatype Cause = Lapsed | Overwritten | ReleasedByOwner | TakenOver

  ghost predicate Explains(c: Config, s: State, m: Move, rec: Record, cause: Cause)
    requires Enabled(s, m)
  {
    match cause
    case Lapsed => m.Tick?
    case Overwritten => m.Quit? && (m.exit.Finalize? || (m.exit.Fail? && s.requests[m.pid].Owner?))
    case ReleasedByOwner =>
      && m.Quit? && m.exit.TimeOut? && s.requests[m.pid] == Owner(rec) && rec.Processing?
      && forall q | q in s.requests && q != m.pid :: s.requests[q] != Owner(rec)
    case TakenOver => m.Proceed? && s.requests[m.pid].Taking? && s.requests[m.pid].stale == rec && Stale(c, rec, s.now)
  }

  // With no hypothesis on timing or errors: apart from expiry and terminal writes, a record leaves
  // the key only when its one owner releases it or when it is a stale reservation being taken over.
  lemma NothingElseIsRemoved(c: Config, r: Run, m: Move, rec: Record)
    requires Possible(c, Then(r, m))
    requires Value(Exec(c, r).cell, Exec(c, r).now) == Some(rec)
    requires Value(Exec(c, Then(r, m)).cell, Exec(c, Then(r, m)).now) != Some(rec)
    ensures exists cause :: Explains(c, Exec(c, r), m, rec, cause)
  {
    TokensOfRun(c, r);
    var s := Exec(c, r);
    assert Explains(c, s, m, rec, Lapsed) || Explains(c, s, m, rec, Overwritten)
      || Explains(c, s, m, rec, ReleasedByOwner)
           || Explains(c, s, m, rec, TakenOver);
  }

  // However many requests try to take over or release one reservation, at most one deletes it.
  lemma DeletedAtMostOnce(c: Config, r: Run, i: nat, j: nat)
    requires Possible(c, r) && i < |Exec(c, r).log| && j < |Exec(c, r).log|
    requires Exec(c, r).log[i].Deleted? && Exec(c, r).log[i] == Exec(c, r).log[j]
    ensures i == j
  {
    TokensOfRun(c, r);
  }

  // Exclusivity.

  ghost predicate Held(c: Config, s: State) {
    && (forall p | p in s.requests && s.requests[p].Built? ::
          s.requests[p].record.Processing? && s.requests[p].record.createdAt as real <= s.now)
    && (forall p | p in s.requests :: !s.requests[p].FailedOpen?)
    && (forall p | p in s.requests && s.requests[p].Owner? ::
          && s.requests[p].record.Processing?
          && s.cell.value == Some(s.requests[p].record)
          && s.cell.expires.Some?
          && s.cell.expires.value >= s.requests[p].record.createdAt as real + c.pendingTtl as real)
  }

  lemma OwnersCoincide(c: Config, s: State, p: nat, q: nat)
    requires Tokens(c, s) && Held(c, s)
    requires p in s.requests && q in s.requests && s.requests[p].Owner? && s.requests[q].Owner?
    ensures p == q
  {
    assert PhaseOk(c, s, s.requests[p]);
    assert TokenOf(s.requests[p]) == TokenOf(s.requests[q]);
  }

  lemma HeldOnProceed(c: Config, s: State, p: nat)
    requires Tokens(c, s) && Held(c, s) && Timely(c, s) && Enabled(s, Proceed(p))
    ensures Held(c, Next(c, s, Proceed(p)))
  {
  }

  lemma HeldOnQuit(c: Config, s: State, p: nat, x: Exit)
    requires Tokens(c, s) && Held(c, s) && Timely(c, s) && Enabled(s, Quit(p, x))
    ensures Held(c, Next(c, s, Quit(p, x)))
    ensures forall q | q in s.requests :: !Next(c, s, Quit(p, x)).requests[q].Owner?
  {
    forall q | q in s.requests && s.requests[q].Owner? ensures q == p {
      OwnersCoincide(c, s, p, q);
    }
  }

  lemma HeldNext(c: Config, s: State, m: Move)
    requires Tokens(c, s) && Held(c, s) && Timely(c, s) && Enabled(s, m) && !m.StoreError?
    ensures Held(c, Next(c, s, m))
  {
    match m
    case Proceed(p) => HeldOnProceed(c, s, p);
    case Quit(p, x) => HeldOnQuit(c, s, p, x);
    case _ =>
  }

  lemma {:induction false} HeldOfRun(c: Config, r: Run)
    requires Possible(c, r) && NoStoreError(r) && TimelyRun(c, r)
    ensures Held(c, Exec(c, r))
  {
    if r.Then? {
      HeldOfRun(c, r.before);
      TokensOfRun(c, r.before);
      HeldNext(c, Exec(c, r.before), r.move);
    }
  }

  // At most one request is an unfinished owner, whatever the interleaving: first reservations,
  // reservations after expiry and stale takeovers included.
  lemma AtMostOneOwner(c: Config, r: Run, p: nat, q: nat)
    requires Possible(c, r) && NoStoreError(r) && TimelyRun(c, r)
    requires p in Exec(c, r).requests && Exec(c, r).requests[p].Owner?
    requires q in Exec(c, r).requests && Exec(c, r).requests[q].Owner?
    ensures p == q
  {
    TokensOfRun(c, r);
    HeldOfRun(c, r);
    OwnersCoincide(c, Exec(c, r), p, q);
  }

  // The key never wedges.

  // A reservation expires at the latest one pending TTL from now.
  ghost predicate Expiring(c: Config, s: State) {
    s.cell.value.Some? && s.cell.value.value.Processing? ==>
      s.cell.expires.Some? && s.cell.expires.value <= s.now + c.pendingTtl as real
  }

  lemma ExpiringOnProceed(c: Config, s: State, p: nat)
    requires Expiring(c, s) && Enabled(s, Proceed(p))
    ensures Expiring(c, Next(c, s, Proceed(p)))
  {
  }

  lemma {:induction false} ExpiringOfRun(c: Config, r: Run)
    requires Possible(c, r)
    ensures Expiring(c, Exec(c, r))
  {
    if r.Then? {
      ExpiringOfRun(c, r.before);
      if r.move.Proceed? {
        ExpiringOnProceed(c, Exec(c, r.before), r.move.pid);
      }
    }
  }

  // Step j + 1 of a request finds the key as its step j left it.
  predicate Undisturbed(c: Config, fp: string, env: nat -> World, j: nat) {
    env(j + 1).cell == Resume(c, Drive(c, Start(fp), env, j), env(j).cell, env(j).now, env(j).token).1
  }

  // A request that reserves while nobody else touches the key.
  ghost predicate Alone(c: Config, fp: string, env: nat -> World, cell: Entry<Record>) {
    env(0).cell == cell && forall j: nat :: Undisturbed(c, fp, env, j)
  }

  lemma FirstCells(c: Config, fp: string, env: nat -> World, cell: Entry<Record>)
    requires Alone(c, fp, env, cell)
    ensures
      var pending := Processing(env(0).token, fp, env(0).now.Floor);
      env(1).cell == cell && env(2).cell == SetNxEx(cell, pending, c.pendingTtl as real, env(1).now).1
  {
    var pending := Processing(env(0).token, fp, env(0).now.Floor);
    assert Undisturbed(c, fp, env, 0) && Undisturbed(c, fp, env, 1);
    assert Drive(c, Start(fp), env, 1) == Built(pending, false);
  }

  // After any run, crashes and lost writes included, a request that reserves alone more than a pending TTL
  // later owns the key, replays or conflicts, unless a terminal record expires between its SET NX and its GET.
  lemma KeyNeverWedges(c: Config, r: Run, fp: string, env: nat -> World)
    requires Possible(c, r) && Orderly(env) && Alone(c, fp, env, Exec(c, r).cell)
    requires env(0).now > Exec(c, r).now + c.pendingTtl as real
    ensures
      var answer, cell := ReserveOutcome(c, fp, env).0, Exec(c, r).cell;
      && !answer.Gone?
      && (answer.Pending? <==>
            cell.value.Some? && cell.expires.Some? && env(1).now <= cell.expires.value < env(2).now)
  {
    ExpiringOfRun(c, r);
    FirstCells(c, fp, env, Exec(c, r).cell);
    assert Before(env, 0, 1) && Before(env, 1, 2);
  }

  // What a terminal write means for everybody else.

  predicate TerminalWrite(e: Event) { e.Finalized? || e.FailureSaved? }

  // What it wrote.
  function Saved(e: Event): Record
    requires TerminalWrite(e)
  {
    match e
    case Finalized(_, _, fp, orderId) => Success(fp, orderId, 201)
    case FailureSaved(_, _, fp, error, status) => Failed(fp, error, status)
  }

  ghost predicate Stands(c: Config, s: State, i: nat)
    requires i < |s.log| && TerminalWrite(s.log[i])
  {
    var rec, until := Saved(s.log[i]), s.log[i].at + c.ttl as real;
    && s.log[i].at <= s.now
    && (s.now <= until ==> s.cell.value == Some(rec) && s.cell.expires == Some(until))
    && (forall j | i < j < |s.log| && (s.log[j].Reserved? || TerminalWrite(s.log[j])) :: s.log[j].at > until)
    && (forall j | i < j < |s.log| && s.log[j].Loaded? && s.log[j].at <= until :: s.log[j].seen == Some(rec))
  }

  ghost predicate AllStand(c: Config, s: State) {
    forall i | 0 <= i < |s.log| && TerminalWrite(s.log[i]) :: Stands(c, s, i)
  }

  lemma StandsOnProceed(c: Config, s: State, p: nat, i: nat)
    requires Tokens(c, s) && Held(c, s) && Enabled(s, Proceed(p))
    requires i < |s.log| && TerminalWrite(s.log[i]) && Stands(c, s, i)
    ensures Stands(c, Next(c, s, Proceed(p)), i)
  {
  }

  lemma AllStandNext(c: Config, s: State, m: Move)
    requires Tokens(c, s) && Held(c, s) && Timely(c, s) && Enabled(s, m) && !m.StoreError?
    requires AllStand(c, s)
    ensures AllStand(c, Next(c, s, m))
  {
    var t := Next(c, s, m);
    forall i | 0 <= i < |t.log| && TerminalWrite(t.log[i]) ensures Stands(c, t, i) {
      if i < |s.log| {
        assert Stands(c, s, i);
        if m.Proceed? {
          StandsOnProceed(c, s, m.pid, i);
        }
      }
    }
  }

  lemma {:induction false} AllStandOfRun(c: Config, r: Run)
    requires Possible(c, r) && NoStoreError(r) && TimelyRun(c, r)
    ensures AllStand(c, Exec(c, r))
  {
    if r.Then? {
      AllStandOfRun(c, r.before);
      TokensOfRun(c, r.before);
      HeldOfRun(c, r.before);
      AllStandNext(c, Exec(c, r.before), r.move);
    }
  }

  // A record loaded while a finalized order stands is that order, and it replays as 200 with its id.
  lemma ReplaysReturnTheOrder(c: Config, r: Run, i: nat, j: nat, fp: string, judgedAt: real)
    requires Possible(c, r) && NoStoreError(r) && TimelyRun(c, r)
    requires
      var log := Exec(c, r).log;
      i < j < |log| && log[i].Finalized? && log[j].Loaded? && log[j].at <= log[i].at + c.ttl as real
    ensures
      var log := Exec(c, r).log;
      var verdict := Judge(c, log[j].seen, fp, judgedAt);
      if log[i].fp == "" || log[i].fp == fp
      then verdict.Terminal? && BuildReplayResponse(verdict.record) == Reply(200, log[i].orderId, "", true)
      else verdict.Mismatch?
  {
    AllStandOfRun(c, r);
    assert Stands(c, Exec(c, r), i);
  }

  // A record loaded while a saved failure stands is that failure, and it replays with its status and error.
  lemma FailuresAreReplayed(c: Config, r: Run, i: nat, j: nat, fp: string, judgedAt: real)
    requires Possible(c, r) && NoStoreError(r) && TimelyRun(c, r)
    requires
      var log := Exec(c, r).log;
      i < j < |log| && log[i].FailureSaved? && log[j].Loaded? && log[j].at <= log[i].at + c.ttl as real
    ensures
      var log := Exec(c, r).log;
      var verdict := Judge(c, log[j].seen, fp, judgedAt);
      if log[i].fp == "" || log[i].fp == fp
      then verdict.Terminal? && BuildReplayResponse(verdict.record) ==
        Reply(if log[i].status == 0 then 503 else log[i].status, "", log[i].error, true)
      else verdict.Mismatch?
  {
    AllStandOfRun(c, r);
    assert Stands(c, Exec(c, r), i);
  }

  // While a terminal record stands, nobody reserves the key and no other outcome is written to it.
  lemma NothingFollowsWithinTheTtl(c: Config, r: Run, i: nat, j: nat)
    requires Possible(c, r) && NoStoreError(r) && TimelyRun(c, r)
    requires i < j < |Exec(c, r).log| && TerminalWrite(Exec(c, r).log[i])
    requires Exec(c, r).log[j].Reserved? || TerminalWrite(Exec(c, r).log[j])
    ensures Exec(c, r).log[j].at > Exec(c, r).log[i].at + c.ttl as real
  {
    AllStandOfRun(c, r);
    assert Stands(c, Exec(c, r), i);
  }

  // The order in which reservations and finalizations alternate.

  ghost predicate NoReservationBetween(s: State, a: nat, b: nat)
    requires b <= |s.log|
  {
    forall j | a < j < b :: !s.log[j].Reserved?
  }

  // Event a reserves the key for p, and nobody reserves it again before event b.
  ghost predicate HoldsUntil(s: State, p: nat, a: nat, b: nat)
    requires b <= |s.log|
  {
    a < b && s.log[a].Reserved? && s.log[a].pid == p && NoReservationBetween(s, a, b)
  }

  ghost predicate FinalizedAs(s: State, p: nat, orderId: string, b: nat) {
    b < |s.log| && s.log[b].Finalized? && s.log[b].pid == p && s.log[b].orderId == orderId
  }

  ghost predicate Alternates(s: State) {
    && (forall p | p in s.requests && s.requests[p].Owner? :: exists a: nat :: HoldsUntil(s, p, a, |s.log|))
    && (forall b | 0 <= b < |s.log| && s.log[b].Finalized? :: exists a: nat :: HoldsUntil(s, s.log[b].pid, a, b))
    && (forall p | p in s.requests && s.requests[p].Done? && s.requests[p].outcome.Created? ::
          exists b: nat :: FinalizedAs(s, p, s.requests[p].outcome.orderId, b))
  }

  lemma OwnersAlternate(c: Config, s: State, m: Move, p: nat) returns (a: nat)
    requires Tokens(c, s) && Held(c, s) && Timely(c, s) && Enabled(s, m) && !m.StoreError? && Alternates(s)
    requires p in Next(c, s, m).requests && Next(c, s, m).requests[p].Owner?
    ensures HoldsUntil(Next(c, s, m), p, a, |Next(c, s, m).log|)
  {
    var t := Next(c, s, m);
    if m.Proceed? && s.requests[m.pid].Built? && t.requests[m.pid].Owner? {
      HeldNext(c, s, m);
      TokensNext(c, s, m);
      OwnersCoincide(c, t, p, m.pid);
      a := |s.log|;
    } else {
      a :| HoldsUntil(s, p, a, |s.log|);
    }
  }

  lemma FinalizationsAlternate(c: Config, s: State, m: Move, b: nat) returns (a: nat)
    requires Enabled(s, m) && Held(c, s) && Alternates(s)
    requires b < |Next(c, s, m).log| && Next(c, s, m).log[b].Finalized?
    ensures HoldsUntil(Next(c, s, m), Next(c, s, m).log[b].pid, a, b)
  {
    if b < |s.log| {
      a :| HoldsUntil(s, s.log[b].pid, a, b);
    } else {
      a :| HoldsUntil(s, m.pid, a, |s.log|);
    }
  }

  lemma CreationsAreFinalized(c: Config, s: State, m: Move, p: nat) returns (b: nat)
    requires Enabled(s, m) && Alternates(s) && !(m.Quit? && m.exit.FinalizeLost?)
    requires p in Next(c, s, m).requests && Next(c, s, m).requests[p].Done?
        && Next(c, s, m).requests[p].outcome.Created?
    ensures FinalizedAs(Next(c, s, m), p, Next(c, s, m).requests[p].outcome.orderId, b)
  {
    if m.Quit? && m.pid == p {
      b := |s.log|;
    } else {
      b :| FinalizedAs(s, p, s.requests[p].outcome.orderId, b);
    }
  }

  lemma AlternatesNext(c: Config, s: State, m: Move)
    requires Tokens(c, s) && Held(c, s) && Timely(c, s) && Enabled(s, m) && !m.StoreError?
    requires !(m.Quit? && m.exit.FinalizeLost?) && Alternates(s)
    ensures Alternates(Next(c, s, m))
  {
    var t := Next(c, s, m);
    forall p | p in t.requests && t.requests[p].Owner? ensures exists a: nat :: HoldsUntil(t, p, a, |t.log|) {
      var a := OwnersAlternate(c, s, m, p);
    }
    forall b | 0 <= b < |t.log| && t.log[b].Finalized? ensures exists a: nat :: HoldsUntil(t, t.log[b].pid, a, b) {
      var a := FinalizationsAlternate(c, s, m, b);
    }
    forall p | p in t.requests && t.requests[p].Done? && t.requests[p].outcome.Created?
      ensures exists b: nat :: FinalizedAs(t, p, t.requests[p].outcome.orderId, b)
    {
      var b := CreationsAreFinalized(c, s, m, p);
    }
  }

  lemma {:induction false} AlternatesOfRun(c: Config, r: Run)
    requires Possible(c, r) && NoStoreError(r) && TimelyRun(c, r) && FinalizeSucceeds(r)
    ensures Alternates(Exec(c, r))
  {
    if r.Then? {
      AlternatesOfRun(c, r.before);
      TokensOfRun(c, r.before);
      HeldOfRun(c, r.before);
      AlternatesNext(c, Exec(c, r.before), r.move);
    }
  }

  // Event a reserves the key for p, event b finalizes p's order, and event d reserves it for q
  // more than the record's lifetime later.
  ghost predicate Separated(c: Config, s: State, p: nat, a: nat, b: nat, q: nat, d: nat) {
    && a < b < d < |s.log|
    && s.log[a].Reserved? && s.log[a].pid == p
    && s.log[b].Finalized? && s.log[b].pid == p
    && s.log[d].Reserved? && s.log[d].pid == q
    && s.log[d].at > s.log[b].at + c.ttl as real
  }

  lemma CreatedApartIn(c: Config, s: State, p: nat, orderP: string, bp: nat, q: nat, orderQ: string, bq: nat)
    requires Alternates(s) && AllStand(c, s) && p != q
    requires FinalizedAs(s, p, orderP, bp) && FinalizedAs(s, q, orderQ, bq)
    ensures (exists a: nat, b: nat, d: nat :: Separated(c, s, p, a, b, q, d))
        || (exists a: nat, b: nat, d: nat :: Separated(c, s, q, a, b, p, d))
  {
    var ap: nat :| HoldsUntil(s, p, ap, bp);
    var aq: nat :| HoldsUntil(s, q, aq, bq);
    if aq >= bp {
      assert Stands(c, s, bp);
      assert Separated(c, s, p, ap, bp, q, aq);
    } else {
      assert Stands(c, s, bq);
      assert Separated(c, s, q, aq, bq, p, ap);
    }
  }

  // Two requests on one key that both answered 201 are apart by more than the record's lifetime.
  lemma CreatedApart(c: Config, r: Run, p: nat, q: nat)
    requires Possible(c, r) && NoStoreError(r) && TimelyRun(c, r) && FinalizeSucceeds(r)
    requires
      var requests := Exec(c, r).requests;
      p != q && p in requests && q in requests && requests[p].Done? && requests[q].Done? &&
      requests[p].outcome.Created? && requests[q].outcome.Created?
    ensures
      var s := Exec(c, r);
      (exists a: nat, b: nat, d: nat :: Separated(c, s, p, a, b, q, d))
        || (exists a: nat, b: nat, d: nat :: Separated(c, s, q, a, b, p, d))
  {
    AlternatesOfRun(c, r);
    AllStandOfRun(c, r);
    var s := Exec(c, r);
    var bp: nat :| FinalizedAs(s, p, s.requests[p].outcome.orderId, bp);
    var bq: nat :| FinalizedAs(s, q, s.requests[q].outcome.orderId, bq);
    CreatedApartIn(c, s, p, s.requests[p].outcome.orderId, bp, q, s.requests[q].outcome.orderId, bq);
  }
}

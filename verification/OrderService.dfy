// app/service/order_service.py: create_order with every way out of it.

module OrderService {
  import opened Options
  import opened Redis
  import opened Fingerprint
  import opened IdempotencyStore
  import BreakerStorage
  import CircuitBreaker

  datatype Command = Command(itemId: Option<string>, quantity: int, idempotencyKey: Option<string>)

  // A reply body; an empty string is an absent field.
  datatype Body = Body(status: string, reason: string, orderId: string, error: string, idempotent: bool)
  datatype ServiceResult = ServiceResult(statusCode: int, body: Body)

  function QueuedBody(reason: string): Body { Body("queued", reason, "", "", false) }
  function ErrorBody(error: string): Body { Body("", "", "", error, false) }

  function ReplayResult(rec: Record): ServiceResult {
    var reply := BuildReplayResponse(rec);
    ServiceResult(reply.status,
      Body(if rec.Success? then "ok" else "", "", reply.orderId, reply.error, reply.idempotent))
  }

  // The reply to a request that ends without owning the key.
  function AnswerTo(o: Outcome): ServiceResult {
    if o.Replayed? then ReplayResult(o.record)
    else if o.Conflicted? then ServiceResult(409, ErrorBody("idempotency key reused with different payload"))
    else ServiceResult(202, Body("processing", "", "", "", true))
  }

  // The injectors raise a drop with status 503 and a fault with status 500.
  datatype Fault = NoFault | Dropped(message: string) | Raised(message: string)

  function FaultStatus(f: Fault): int { if f.Dropped? then 503 else 500 }

  // What the rest of the world does to one call. `storeError` is the step of reserve or wait at which an
  // exception strikes, `admitError` and `reportError` the breaker command that raises a RedisError.
  datatype Luck = Luck(
    admitError: BreakerStorage.AdmitError, storeError: Option<nat>, deadlineExceeded: bool, fault: Fault,
      inventoryBusy: bool,
    saveFails: bool, orderId: string, reportError: Option<nat>, writeFails: bool, serial: nat)

  // How the call ended. Unadmitted and Escaped are the RedisErrors of the breaker, which nothing catches.
  datatype Way =
    | Unadmitted
    | Shed
    | Invalid
    | Answered(phase: Phase)
    | TimedOut(phase: Phase, exit: Exit)
    | Escaped(phase: Phase)
    | Ran(phase: Phase, exit: Exit)

  predicate GotPastValidation(way: Way) { way.Answered? || GotPastClaim(way) }
  predicate GotPastClaim(way: Way) { way.TimedOut? || GotPastDeadline(way) }
  predicate GotPastDeadline(way: Way) { way.Escaped? || way.Ran? }

  // What the call returns or raises.
  datatype Answer = Returned(result: ServiceResult) | RaisedValidation | RaisedRedisError

  // The reply the handlers of app/api/hooks.py make of it.
  function HttpReply(a: Answer): ServiceResult {
    match a
    case Returned(result) => result
    case RaisedValidation => ServiceResult(400, ErrorBody("invalid request"))
    case RaisedRedisError => ServiceResult(503, ErrorBody("redis unavailable"))
  }

  // An empty key header is no key.
  predicate HasKey(command: Command) {
    command.idempotencyKey.Some? && command.idempotencyKey.value != ""
  }

  predicate IsOrder(command: Command) {
    command.itemId.Some? && command.itemId.value != "" && command.quantity > 0
  }

  // The reply of the order itself.
  function WorkResult(luck: Luck): (r: ServiceResult)
    ensures r.statusCode == 201 <==> Succeeds(luck)
  {
    if !luck.fault.NoFault? then ServiceResult(FaultStatus(luck.fault), ErrorBody(luck.fault.message))
    else if luck.inventoryBusy then ServiceResult(503, ErrorBody("inventory busy"))
    else if luck.saveFails then ServiceResult(503, ErrorBody("order store unavailable"))
    else ServiceResult(201, Body("ok", "", luck.orderId, "", false))
  }

  predicate Succeeds(luck: Luck) { luck.fault.NoFault? && !luck.inventoryBusy && !luck.saveFails }

  // The report of the call, given whether it holds the probe.
  function ReportOf(probe: bool, luck: Luck): CircuitBreaker.Report {
    CircuitBreaker.ReportOf(probe, Succeeds(luck))
  }

  function WorkExit(luck: Luck): Exit {
    if Succeeds(luck) then if luck.writeFails then FinalizeLost(luck.orderId) else Finalize(luck.orderId)
    else if luck.writeFails then FailLost(WorkResult(luck).statusCode)
    else Fail(WorkResult(luck).body.error, WorkResult(luck).statusCode)
  }

  predicate Lost(x: Exit) { x.FinalizeLost? || x.FailLost? || x.TimeOutLost? }

  // The exit of a call that got past the claim: the protocol's Crash where an error escaped.
  function KeyAfter(c: Config, way: Way, cell: Entry<Record>, now: real): Entry<Record>
    requires GotPastClaim(way) && (way.phase.Owner? || way.phase.FailedOpen?)
  {
    if way.Escaped? then cell else Leave(c, way.phase, cell, now, way.exit).1
  }

  // Step k is the first at which the request is no longer inside the store, or the one at which the error strikes.
  ghost predicate Claimed(c: Config, fp: string, error: Option<nat>, env: nat -> World, ph: Phase, k: nat) {
    && (forall j: nat :: j < k ==> InStore(Drive(c, Start(fp), env, j)))
    && !Strikes(error, 0, k)
    && (if InStore(Drive(c, Start(fp), env, k)) then error == Some(k) && ph == FailedOpen(fp)
        else ph == Drive(c, Start(fp), env, k))
  }

  lemma ClaimEndsFirst(c: Config, fp: string, error: Option<nat>, env: nat -> World, ph: Phase, k: nat, ph': Phase,
      k': nat)
    requires Claimed(c, fp, error, env, ph, k) && Claimed(c, fp, error, env, ph', k')
    ensures k' <= k
  {
    var still := InStore(Drive(c, Start(fp), env, k));
  }

  // The world and the error leave the claim no choice.
  lemma ClaimIsDecided(c: Config, fp: string, error: Option<nat>, env: nat -> World, ph: Phase, k: nat, ph': Phase,
      k': nat)
    requires Claimed(c, fp, error, env, ph, k) && Claimed(c, fp, error, env, ph', k')
    ensures ph == ph' && k == k'
  {
    ClaimEndsFirst(c, fp, error, env, ph, k, ph', k');
    ClaimEndsFirst(c, fp, error, env, ph', k', ph, k);
  }

  // Once a request waits, every step until the last look is inside the store, and then the wait has answered.
  lemma WaitContinues(c: Config, fp: string, env: nat -> World, i: nat, polls: nat)
    requires Drive(c, Start(fp), env, i) == Waiting(fp)
    requires forall m: nat | m < polls :: KeepsPolling(c, fp, WaitDeadline(c, env(i).now), env, i, m)
    ensures forall j: nat | i <= j < PollStep(i, polls) + 3 :: InStore(Drive(c, Start(fp), env, j))
    ensures
      var deadline, k := WaitDeadline(c, env(i).now), PollStep(i, polls);
      !KeepsPolling(c, fp, deadline, env, i, polls) ==>
        Drive(c, Start(fp), env, k + 3) == After(PollAnswer(fp, deadline, env, k), fp, true)
  {
    var path := Path(c, Start(fp), env);
    PathFollows(c, Start(fp), env);
    WaitIsDriven(c, fp, env, path, i, polls);
    forall j: nat | i <= j < PollStep(i, polls) + 3
      ensures InStore(Drive(c, Start(fp), env, j))
    {
      assert InStore(path(j));
    }
  }

  // What an error during the wait, and what its answer, means for the claim.
  lemma WaitClaims(c: Config, fp: string, error: Option<nat>, env: nat -> World, i: nat, polls: nat)
    requires Drive(c, Start(fp), env, i) == Waiting(fp) && !Strikes(error, 0, i)
    requires forall j: nat :: j < i ==> InStore(Drive(c, Start(fp), env, j))
    requires forall m: nat | m < polls :: KeepsPolling(c, fp, WaitDeadline(c, env(i).now), env, i, m)
    ensures Strikes(error, i, PollStep(i, polls) + 3) ==>
        Claimed(c, fp, error, env, FailedOpen(fp), error.value)
    ensures
      var deadline, k := WaitDeadline(c, env(i).now), PollStep(i, polls);
      !Strikes(error, i, k + 3) && !KeepsPolling(c, fp, deadline, env, i, polls) ==>
        Claimed(c, fp, error, env, After(PollAnswer(fp, deadline, env, k), fp, true), k + 3)
  {
    WaitContinues(c, fp, env, i, polls);
  }

  // What an answer of reserve means for the claim.
  lemma ReserveClaims(c: Config, fp: string, error: Option<nat>, env: nat -> World, r: Reservation)
    requires r == ReserveOutcome(c, fp, env).0 && !Strikes(error, 0, ReserveOutcome(c, fp, env).1)
    ensures
      var n := ReserveOutcome(c, fp, env).1;
      if r.Pending? then Drive(c, Start(fp), env, n) == Waiting(fp)
      else Claimed(c, fp, error, env, After(r, fp, false), n)
    ensures r.Owned? ==> r.record.Processing? && r.record.fp == fp
    ensures !r.Gone?
  {
    ReserveIsDriven(c, fp, env);
  }

  // Only wait sleeps, so only a call that has to wait takes its time.
  ghost predicate SleepsWhileWaiting(c: Config, fp: string, env: nat -> World) {
    var (r, n) := ReserveOutcome(c, fp, env);
    r.Pending? ==> Sleeps(c, fp, env, n)
  }

  // An owner's reservation stays exactly when an error escaped or its write was lost, and nobody else had removed it.
  lemma ReservationStays(c: Config, way: Way, cell: Entry<Record>, now: real)
    requires GotPastClaim(way) && way.phase.Owner? && way.phase.record.Processing?
    ensures Value(KeyAfter(c, way, cell, now), now) == Some(way.phase.record) <==>
            (way.Escaped? || Lost(way.exit)) && Value(cell, now) == Some(way.phase.record)
  {
  }

  // A record that carries a fingerprint is replayed only for the identical payload, and refused for any other.
  lemma ReplayedOnlyForSamePayload(c: Config, rec: Record, now: real, item: string, quantity: int, item0: string,
      quantity0: int)
    requires rec.fp == PayloadText(item0, quantity0)
    ensures Judge(c, Some(rec), PayloadText(item, quantity), now).Mismatch? <==> (item, quantity) != (item0, quantity0)
    ensures Settled(Some(rec), PayloadText(item, quantity)) == Some(Replay(rec)) ==>
        item == item0 && quantity == quantity0
  {
    Injective(item, quantity, item0, quantity0);
  }

  class OrderService {
    const store: Store
    const circuit: BreakerStorage.RedisCircuitBreakerStorage
    const resilience: bool

    constructor (store: Store, circuit: BreakerStorage.RedisCircuitBreakerStorage, resilience: bool)
      ensures this.store == store && this.circuit == circuit && this.resilience == resilience
    {
      this.store, this.circuit, this.resilience := store, circuit, resilience;
    }

    // No record but that of `key` changes, and without a key none does.
    twostate predicate OnlyTouches(key: Option<string>)
      reads store.redis
    {
      forall k :: key != Some(k) ==> store.redis.At(k) == old(store.redis.At(k))
    }

    // The idempotency block: the request goes on as an owner or, after a StorageException, as one
    // that failed open, or it is answered at once. Its next step is numbered k.
    method Claim(key: string, fp: string, error: Option<nat>, env: nat -> World) returns (ph: Phase, k: nat)
      requires Orderly(env) && store.redis.time <= env(0).now
      requires SleepsWhileWaiting(store.config, fp, env)
      modifies store.redis
      ensures Claimed(store.config, fp, error, env, ph, k)
      ensures store.redis.time <= env(k).now && OnlyTouches(Some(key))
      ensures ph.Owner? || ph.FailedOpen?
          || (ph.Done? && (ph.outcome.Replayed? || ph.outcome.Conflicted? || ph.outcome.StillPending?))
      ensures ph.FailedOpen? ==> ph.fp == fp
      ensures ph.Owner? ==> ph.record.Processing? && ph.record.fp == fp
    {
      var r, n, trail := store.Reserve(key, fp, env, error);
      ReserveIsDriven(store.config, fp, env);
      if r.None? {
        return FailedOpen(fp), n;
      }
      ReserveClaims(store.config, fp, error, env, r.value);
      assert Before(env, n - 1, n);
      ph, k := After(r.value, fp, false), n;
      if r.value.Pending? {
        ph, k := Wait(key, fp, error, env, n);
      }
    }

    method Wait(key: string, fp: string, error: Option<nat>, env: nat -> World, i: nat) returns (ph: Phase, k: nat)
      requires Orderly(env) && store.redis.time <= env(i).now && !Strikes(error, 0, i)
      requires Sleeps(store.config, fp, env, i)
      requires Drive(store.config, Start(fp), env, i) == Waiting(fp)
      requires forall j: nat :: j < i ==> InStore(Drive(store.config, Start(fp), env, j))
      modifies store.redis
      ensures Claimed(store.config, fp, error, env, ph, k)
      ensures store.redis.time <= env(k).now && OnlyTouches(Some(key))
      ensures ph == FailedOpen(fp)
          || (ph.Done? && (ph.outcome.Replayed? || ph.outcome.Conflicted? || ph.outcome.StillPending?))
    {
      var waited, polls := store.WaitForResult(key, fp, env, i, error);
      WaitClaims(store.config, fp, error, env, i, polls);
      if waited.None? {
        return FailedOpen(fp), error.value;
      }
      ph, k := After(waited.value, fp, true), PollStep(i, polls) + 3;
      assert Before(env, k - 1, k);
    }

    // Records the failure for the key, if this request owns it.
    method LeaveFailed(key: Option<string>, ph: Phase, fp: string, error: string, status: int, writeFails: bool)
      returns (x: Exit)
      requires (ph.Owner? && ph.record.fp == fp) || (ph.FailedOpen? && ph.fp == fp)
      modifies store.redis
      ensures x == if writeFails then FailLost(status) else Fail(error, status)
      ensures key.Some? ==>
                store.redis.At(key.value) ==
                  Leave(store.config, ph, old(store.redis.At(key.value)), old(store.redis.time), x).1
      ensures store.redis.time == old(store.redis.time) && OnlyTouches(key)
    {
      if key.Some? && ph.Owner? && !writeFails {
        store.SaveFailed(key.value, fp, error, status);
      }
      x := if writeFails then FailLost(status) else Fail(error, status);
    }

    // Tells the breaker, if there is one.
    method Report(breaker: CircuitBreaker.Breaker?, success: bool, luck: Luck) returns (raised: bool)
      requires breaker != null ==> breaker.storage.redis as object != store.redis
      modifies breaker, if breaker != null then {breaker.storage.redis} else {}
      ensures breaker == null ==> !raised
      ensures breaker != null ==> Told(breaker, success, luck, raised)
    {
      raised := false;
      if breaker != null {
        var recorded;
        if success {
          raised, recorded := breaker.RecordSuccess(luck.serial, luck.reportError);
        } else {
          raised, recorded := breaker.RecordFailure(luck.serial, luck.reportError);
        }
      }
    }

    // The breaker has been told of an outcome, as far as its commands went through.
    twostate predicate Told(breaker: CircuitBreaker.Breaker, success: bool, luck: Luck, raised: bool)
      reads breaker, breaker.storage.redis
    {
      var probe := old(breaker.probeAcquired);
      && (raised <==> CircuitBreaker.Raises(CircuitBreaker.ReportOf(probe, success), luck.reportError))
      && breaker.reports ==
        old(breaker.reports)
        + (if CircuitBreaker.Lands(CircuitBreaker.ReportOf(probe, success), luck.reportError) then [success] else [])
      && breaker.storage.redis.time == old(breaker.storage.redis.time)
      && breaker.storage.State() == CircuitBreaker.Reported(
           breaker.storage.rule, CircuitBreaker.ReportOf(probe, success), old(breaker.storage.State()), luck.serial,
           breaker.storage.redis.time, luck.reportError)
    }

    // The three ways of failing share what follows the failure: tell the breaker, and record the
    // failure for the key if this request owns it.
    method FailOrder(key: Option<string>, ph: Phase, fp: string, error: string, status: int, luck: Luck,
        breaker: CircuitBreaker.Breaker?)
      returns (way: Way)
      requires (ph.Owner? && ph.record.fp == fp) || (ph.FailedOpen? && ph.fp == fp)
      requires breaker != null ==> breaker.storage.redis as object != store.redis
      modifies store.redis, breaker, if breaker != null then {breaker.storage.redis} else {}
      ensures breaker != null ==> Told(breaker, false, luck, way.Escaped?)
      ensures way == Escaped(ph) || way == Ran(ph, if luck.writeFails then FailLost(status) else Fail(error, status))
      ensures breaker == null ==> way.Ran?
      ensures key.Some? ==>
                store.redis.At(key.value) ==
                  KeyAfter(store.config, way, old(store.redis.At(key.value)), old(store.redis.time))
      ensures store.redis.time == old(store.redis.time) && OnlyTouches(key)
    {
      var raised := Report(breaker, false, luck);
      if raised {
        return Escaped(ph);
      }
      var x := LeaveFailed(key, ph, fp, error, status, luck.writeFails);
      way := Ran(ph, x);
    }

    // The order itself.
    method Work(key: Option<string>, ph: Phase, fp: string, luck: Luck, breaker: CircuitBreaker.Breaker?)
      returns (r: Answer, way: Way)
      requires (ph.Owner? && ph.record.fp == fp) || (ph.FailedOpen? && ph.fp == fp)
      requires breaker != null ==> breaker.storage.redis as object != store.redis
      modifies store.redis, breaker, if breaker != null then {breaker.storage.redis} else {}
      ensures breaker != null ==> Told(breaker, Succeeds(luck), luck, way.Escaped?)
      ensures way == Escaped(ph) || way == Ran(ph, WorkExit(luck))
      ensures breaker == null ==> way.Ran?
      ensures r == if way.Escaped? then RaisedRedisError else Returned(WorkResult(luck))
      ensures key.Some? ==>
                store.redis.At(key.value) ==
                  KeyAfter(store.config, way, old(store.redis.At(key.value)), old(store.redis.time))
      ensures store.redis.time == old(store.redis.time) && OnlyTouches(key)
    {
      var result;
      if !luck.fault.NoFault? {
        way := FailOrder(key, ph, fp, luck.fault.message, FaultStatus(luck.fault), luck, breaker);
        result := ServiceResult(FaultStatus(luck.fault), ErrorBody(luck.fault.message));
      } else if luck.inventoryBusy {
        way := FailOrder(key, ph, fp, "inventory busy", 503, luck, breaker);
        result := ServiceResult(503, ErrorBody("inventory busy"));
      } else if luck.saveFails {
        way := FailOrder(key, ph, fp, "order store unavailable", 503, luck, breaker);
        result := ServiceResult(503, ErrorBody("order store unavailable"));
      } else {
        way := CompleteOrder(key, ph, fp, luck, breaker);
        result := ServiceResult(201, Body("ok", "", luck.orderId, "", false));
      }
      r := if way.Escaped? then RaisedRedisError else Returned(result);
    }

    // The saved order: tell the breaker, then finalize.
    method CompleteOrder(key: Option<string>, ph: Phase, fp: string, luck: Luck, breaker: CircuitBreaker.Breaker?)
      returns (way: Way)
      requires (ph.Owner? && ph.record.fp == fp) || (ph.FailedOpen? && ph.fp == fp)
      requires breaker != null ==> breaker.storage.redis as object != store.redis
      modifies store.redis, breaker, if breaker != null then {breaker.storage.redis} else {}
      ensures breaker != null ==> Told(breaker, true, luck, way.Escaped?)
      ensures way == Escaped(ph)
          || way == Ran(ph, if luck.writeFails then FinalizeLost(luck.orderId) else Finalize(luck.orderId))
      ensures breaker == null ==> way.Ran?
      ensures key.Some? ==>
                store.redis.At(key.value) ==
                  KeyAfter(store.config, way, old(store.redis.At(key.value)), old(store.redis.time))
      ensures store.redis.time == old(store.redis.time) && OnlyTouches(key)
    {
      var raised := Report(breaker, true, luck);
      if raised {
        return Escaped(ph);
      }
      if key.Some? && !luck.writeFails {
        store.FinalizeSuccess(key.value, fp, luck.orderId);
      }
      way := Ran(ph, if luck.writeFails then FinalizeLost(luck.orderId) else Finalize(luck.orderId));
    }

    // The deadline check and what comes after it.
    method Finish(key: Option<string>, ph: Phase, fp: string, luck: Luck, breaker: CircuitBreaker.Breaker?)
      returns (r: Answer, way: Way)
      requires (ph.Owner? && ph.record.fp == fp && key.Some?) || (ph.FailedOpen? && ph.fp == fp)
      requires breaker != null ==> breaker.storage.redis as object != store.redis
      requires breaker != null <==> resilience
      modifies store.redis, breaker, if breaker != null then {breaker.storage.redis} else {}
      ensures GotPastClaim(way) && way.phase == ph
      ensures way.TimedOut? <==> resilience && luck.deadlineExceeded
      ensures way.TimedOut? ==>
                && r == Returned(ServiceResult(202, QueuedBody("timeout protected")))
                && way.exit == (if luck.writeFails then TimeOutLost else TimeOut)
                && breaker.reports == old(breaker.reports)
                  && breaker.storage.redis.time == old(breaker.storage.redis.time)
                && breaker.storage.State() == old(breaker.storage.State())
      ensures !way.TimedOut? ==>
                && (breaker != null ==> Told(breaker, Succeeds(luck), luck, way.Escaped?))
                && (breaker == null ==> way.Ran?)
                && (way.Ran? ==> way.exit == WorkExit(luck))
                && r == if way.Escaped? then RaisedRedisError else Returned(WorkResult(luck))
      ensures key.Some? ==>
                store.redis.At(key.value) ==
                  KeyAfter(store.config, way, old(store.redis.At(key.value)), old(store.redis.time))
      ensures store.redis.time == old(store.redis.time) && OnlyTouches(key)
    {
      if resilience && luck.deadlineExceeded {
        if ph.Owner? && !luck.writeFails {
          var deleted := store.Release(key.value, ph.record);
        }
        return Returned(ServiceResult(202, QueuedBody("timeout protected"))),
          TimedOut(ph, if luck.writeFails then TimeOutLost else TimeOut);
      }
      r, way := Work(key, ph, fp, luck, breaker);
    }

    // The breaker of one call, and its answer.
    method Enter(luck: Luck) returns (breaker: CircuitBreaker.Breaker?, raised: bool, allowed: bool)
      modifies circuit.redis
      ensures breaker != null <==> resilience
      ensures breaker != null ==>
        && fresh(breaker) && breaker.storage == circuit && breaker.reports == []
        && circuit.redis.time == old(circuit.redis.time)
        && (raised <==> BreakerStorage.AdmitRaises(old(circuit.State()), circuit.redis.time, luck.admitError))
      ensures breaker != null && raised ==> Unseen(old(circuit.State()))
      ensures breaker != null && !raised ==>
        var a := CircuitBreaker.Admit(circuit.rule, old(circuit.State()), circuit.redis.time);
        allowed == a.allowed && breaker.probeAcquired == a.acquired && Unseen(a.circuit)
      ensures breaker == null ==> !raised && allowed && unchanged(circuit.redis)
    {
      breaker, raised, allowed := null, false, true;
      if resilience {
        var b := new CircuitBreaker.Breaker(circuit);
        raised, allowed := b.AllowRequest(luck.admitError);
        breaker := b;
      }
    }

    // The circuit is k, except that reads may have dropped expired keys.
    ghost predicate Unseen(k: BreakerStorage.Circuit)
      reads circuit.redis
    {
      BreakerStorage.Tidy(circuit.State(), circuit.redis.time) == BreakerStorage.Tidy(k, circuit.redis.time)
    }

    // What a call that got past the claim comes to, given the report it makes.
    ghost predicate Ended(luck: Luck, report: CircuitBreaker.Report, r: Answer, way: Way) {
      var late := resilience && luck.deadlineExceeded;
      && (way.TimedOut? <==> late)
      && (way.Escaped? <==> !late && resilience && CircuitBreaker.Raises(report, luck.reportError))
      && match way
         case TimedOut(_, exit) =>
           && r == Returned(ServiceResult(202, QueuedBody("timeout protected")))
           && exit == if luck.writeFails then TimeOutLost else TimeOut
         case Escaped(_) => r == RaisedRedisError
         case Ran(_, exit) => r == Returned(WorkResult(luck)) && exit == WorkExit(luck)
         case _ => false
    }

    // What a valid order comes to.
    ghost predicate Decided(command: Command, luck: Luck, env: nat -> World, report: CircuitBreaker.Report,
        r: Answer, way: Way, k: nat)
      requires IsOrder(command)
    {
      var fp := PayloadText(command.itemId.value, command.quantity);
      && GotPastValidation(way)
      && (if HasKey(command) then Claimed(store.config, fp, luck.storeError, env, way.phase, k)
          else way.phase == FailedOpen(fp) && k == 0)
      && (way.Answered? <==> way.phase.Done?)
      && (way.Answered? ==> r == Returned(AnswerTo(way.phase.outcome)))
      && (GotPastClaim(way) ==>
        && Ended(luck, report, r, way)
        && if way.phase.Owner? then way.phase.record.Processing? && way.phase.record.fp == fp && HasKey(command)
           else way.phase == FailedOpen(fp))
    }

    // The circuit as the report leaves it, which found it as k.
    ghost predicate CircuitLeft(luck: Luck, report: CircuitBreaker.Report, way: Way, k: BreakerStorage.Circuit,
        now: real)
      reads circuit.redis
    {
      && (way.TimedOut? ==> circuit.State() == k)
      && (GotPastDeadline(way) ==>
        && circuit.redis.time == now
        && circuit.State() ==
          CircuitBreaker.Reported(circuit.rule, report, k, luck.serial, now, luck.reportError))
    }

    // From the deadline check on, at step k.
    method Resolve(key: Option<string>, ph: Phase, fp: string, luck: Luck, w: World, k: BreakerStorage.Circuit,
        breaker: CircuitBreaker.Breaker?, ghost report: CircuitBreaker.Report)
      returns (r: Answer, way: Way)
      requires (ph.Owner? && ph.record.fp == fp && key.Some?) || (ph.FailedOpen? && ph.fp == fp)
      requires store.redis.time <= w.now && circuit.redis.time <= w.now && circuit.redis as object != store.redis
      requires breaker != null <==> resilience
      requires breaker != null ==>
        breaker.storage == circuit && breaker.reports == [] && report == ReportOf(breaker.probeAcquired, luck)
      modifies store.redis, circuit.redis, breaker
      ensures GotPastClaim(way) && way.phase == ph && Ended(luck, report, r, way)
      ensures key.Some? ==>
        store.redis.time == w.now && store.redis.At(key.value) == KeyAfter(store.config, way, w.cell, w.now)
      ensures breaker != null ==>
        && CircuitLeft(luck, report, way, k, w.now)
        && breaker.reports ==
          if !way.TimedOut? && CircuitBreaker.Lands(report, luck.reportError) then [Succeeds(luck)] else []
      ensures breaker == null ==> unchanged(circuit.redis)
      ensures OnlyTouches(key)
    {
      if key.Some? {
        store.redis.Interfere(key.value, w.now, w.cell);
      }
      if breaker != null {
        circuit.Interfere(w.now, k);
      }
      r, way := Finish(key, ph, fp, luck, breaker);
    }

    // From the claim on.
    method Serve(command: Command, luck: Luck, env: nat -> World, circuits: nat -> BreakerStorage.Circuit,
        breaker: CircuitBreaker.Breaker?, ghost report: CircuitBreaker.Report)
      returns (r: Answer, way: Way, k: nat)
      requires IsOrder(command)
      requires Orderly(env) && circuit.redis.time <= env(0).now && store.redis.time <= env(0).now
      requires HasKey(command) ==>
          SleepsWhileWaiting(store.config, PayloadText(command.itemId.value, command.quantity), env)
      requires circuit.redis as object != store.redis
      requires breaker != null <==> resilience
      requires breaker != null ==>
        breaker.storage == circuit && breaker.reports == [] && report == ReportOf(breaker.probeAcquired, luck)
      modifies store.redis, circuit.redis, breaker
      ensures Decided(command, luck, env, report, r, way, k)
      ensures GotPastClaim(way) && HasKey(command) ==>
        && store.redis.time == env(k).now
        && store.redis.At(command.idempotencyKey.value) == KeyAfter(store.config, way, env(k).cell, env(k).now)
      ensures breaker != null ==>
        breaker.reports ==
        if GotPastDeadline(way) && CircuitBreaker.Lands(report, luck.reportError) then [Succeeds(luck)] else []
      ensures breaker != null && way.Answered? ==>
          circuit.State() == old(circuit.State()) && circuit.redis.time == old(circuit.redis.time)
      ensures breaker != null ==> CircuitLeft(luck, report, way, circuits(k), env(k).now)
      ensures breaker == null ==> unchanged(circuit.redis)
      ensures OnlyTouches(if HasKey(command) then command.idempotencyKey else None)
    {
      var fp := PayloadText(command.itemId.value, command.quantity);
      var ph := FailedOpen(fp);
      k := 0;
      var key := if HasKey(command) then command.idempotencyKey else None;
      if key.Some? {
        ph, k := Claim(key.value, fp, luck.storeError, env);
        if ph.Done? {
          return Returned(AnswerTo(ph.outcome)), Answered(ph), k;
        }
      }
      assert Before(env, 0, k);
      r, way := Resolve(key, ph, fp, luck, env(k), circuits(k), breaker, report);
    }

    // `k` is the number of the step, in the world of the other requests, at which the call was answered or
    // left; `circuits` is what they have made of the circuit by then.
    method CreateOrder(command: Command, luck: Luck, env: nat -> World, circuits: nat -> BreakerStorage.Circuit)
      returns (r: Answer, way: Way, k: nat, ghost report: CircuitBreaker.Report, ghost reports: seq<bool>)
      requires Orderly(env) && circuit.redis.time <= env(0).now && store.redis.time <= env(0).now
      requires IsOrder(command) && HasKey(command) ==>
        SleepsWhileWaiting(store.config, PayloadText(command.itemId.value, command.quantity), env)
      requires circuit.redis as object != store.redis
      modifies store.redis, circuit.redis
      // What decides how the call ends: the breaker, then the order, then the claim, the deadline and the report.
      ensures way.Unadmitted? <==>
        resilience && BreakerStorage.AdmitRaises(old(circuit.State()), old(circuit.redis.time), luck.admitError)
      ensures way.Shed? <==>
        resilience && !way.Unadmitted?
          && !CircuitBreaker.Admit(circuit.rule, old(circuit.State()), old(circuit.redis.time)).allowed
      ensures way.Invalid? <==>
        && !way.Unadmitted? && !way.Shed?
        && (command.itemId == None || command.itemId == Some("") || command.quantity <= 0)
      ensures report == ReportIn(old(circuit.State()), old(circuit.redis.time), luck)
      ensures GotPastValidation(way) ==> IsOrder(command) && Decided(command, luck, env, report, r, way, k)
      ensures match way
              case Unadmitted => r == RaisedRedisError
              case Shed => r == Returned(ServiceResult(202, QueuedBody("circuit open")))
              case Invalid => r == RaisedValidation
              case _ => true
      // A call that got past the deadline check records one outcome, a success exactly when the order succeeds,
      // if and only if its breaker commands get as far as the last write; any other call records none.
      ensures reports ==
        if resilience && GotPastDeadline(way) && CircuitBreaker.Lands(report, luck.reportError) then [Succeeds(luck)]
        else []
      ensures way.Ran? ==> (r.result.statusCode == 201 <==> Succeeds(luck))
      // No other record is touched, and without a key none is.
      ensures OnlyTouches(if command.idempotencyKey == Some("") then None else command.idempotencyKey)
      // The key is left as the protocol says, by the exit taken or, where an error escaped, by a crash.
      ensures GotPastClaim(way) && HasKey(command) ==>
        && store.redis.time == env(k).now
        && store.redis.At(command.idempotencyKey.value) == KeyAfter(store.config, way, env(k).cell, env(k).now)
      // An owner's own reservation stays exactly when an error escaped or its write was lost.
      ensures GotPastClaim(way) && way.phase.Owner? ==>
        var mine := Some(way.phase.record);
        Value(store.redis.At(command.idempotencyKey.value), store.redis.time) == mine <==>
        (way.Escaped? || Lost(way.exit)) && Value(env(k).cell, env(k).now) == mine
      // Before the report the circuit is left as the admission, and then the other requests, have it.
      ensures resilience && way.Unadmitted? ==> Unseen(old(circuit.State()))
      ensures resilience && (way.Shed? || way.Invalid? || way.Answered?) ==>
        Unseen(CircuitBreaker.Admit(circuit.rule, old(circuit.State()), old(circuit.redis.time)).circuit)
      // And then as the commands of the report leave it.
      ensures resilience ==> CircuitLeft(luck, report, way, circuits(k), env(k).now)
      ensures !resilience ==> unchanged(circuit.redis)
    {
      report, reports, k := ReportIn(circuit.State(), circuit.redis.time, luck), [], 0;
      var breaker, raised, allowed := Enter(luck);
      if raised {
        return RaisedRedisError, Unadmitted, 0, report, [];
      }
      if !allowed {
        return Returned(ServiceResult(202, QueuedBody("circuit open"))), Shed, 0, report, [];
      }
      if command.itemId.None? || command.itemId.value == "" || command.quantity <= 0 {
        return RaisedValidation, Invalid, 0, report, [];
      }
      r, way, k := Serve(command, luck, env, circuits, breaker, report);
      if breaker != null {
        reports := breaker.reports;
      }
      if GotPastClaim(way) && way.phase.Owner? {
        ReservationStays(store.config, way, env(k).cell, env(k).now);
      }
    }

    // The report that a call admitted in this circuit makes.
    ghost function ReportIn(k: BreakerStorage.Circuit, now: real, luck: Luck): CircuitBreaker.Report {
      ReportOf(resilience && CircuitBreaker.Admit(circuit.rule, k, now).acquired, luck)
    }
  }
}

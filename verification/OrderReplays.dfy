// What a client gets that repeats an order on its key: the calls of app/service/order_service.py one after
// the other, with nobody else touching the record between them.

module OrderReplays {
  import opened Options
  import opened Redis
  import opened Fingerprint
  import opened IdempotencyStore
  import opened IdempotencyProtocol
  import opened OrderService
  import BreakerStorage

  const CONFLICT := ServiceResult(409, Body("", "", "", "idempotency key reused with different payload", false))

  // ---- A record that settles the request ----

  // A terminal record, or any record of another payload.
  predicate Settles(rec: Record, fp: string) {
    !rec.Processing? || (rec.fp != "" && rec.fp != fp)
  }

  // A request that finds such a record is through after four steps.
  lemma RecordIsFound(c: Config, fp: string, env: nat -> World, cell: Entry<Record>)
    requires Alone(c, fp, env, cell) && Orderly(env)
    requires cell.value.Some? && Settles(cell.value.value, fp)
    requires cell.expires.Some? && env(2).now <= cell.expires.value
    ensures
      var rec := cell.value.value;
      ReserveOutcome(c, fp, env) == (if rec.fp != "" && rec.fp != fp then Conflict(rec) else Replay(rec), 4)
  {
    FirstCells(c, fp, env, cell);
    assert Before(env, 1, 2);
  }

  lemma RecordIsClaimed(c: Config, fp: string, env: nat -> World, cell: Entry<Record>, ph: Phase, k: nat)
    requires Alone(c, fp, env, cell) && Orderly(env) && Claimed(c, fp, None, env, ph, k)
    requires cell.value.Some? && Settles(cell.value.value, fp)
    requires cell.expires.Some? && env(2).now <= cell.expires.value
    ensures
      var rec := cell.value.value;
      ph == Done(if rec.fp != "" && rec.fp != fp then Conflicted(rec) else Replayed(rec))
  {
    RecordIsFound(c, fp, env, cell);
    var r := ReserveOutcome(c, fp, env).0;
    ReserveClaims(c, fp, None, env, r);
    ClaimIsDecided(c, fp, None, env, ph, k, After(r, fp, false), 4);
  }

  // The reply to a repeated order: what its record says, marked as a repetition.
  function Repeated(rec: Record): ServiceResult
    requires !rec.Processing?
  {
    match rec
    case Success(_, orderId, _) => ServiceResult(200, Body("ok", "", orderId, "", true))
    case Failed(_, error, status) => ServiceResult(if status == 0 then 503 else status, Body("", "", "", error, true))
  }

  lemma ReplayIsRepeated(rec: Record)
    ensures !rec.Processing? ==> AnswerTo(Replayed(rec)) == Repeated(rec)
    ensures AnswerTo(Conflicted(rec)) == CONFLICT
  {
  }

  // An order on a key that holds such a record is answered from the record, if the breaker lets it in.
  method AskAgain(service: OrderService, again: Command, luck: Luck, env: nat -> World,
      circuits: nat -> BreakerStorage.Circuit)
    returns (r: Answer, way: Way)
    requires IsOrder(again) && HasKey(again) && luck.storeError == None
    requires Orderly(env) && service.circuit.redis.time <= env(0).now && service.store.redis.time <= env(0).now
    requires service.circuit.redis as object != service.store.redis
    requires
      var fp, cell := PayloadText(again.itemId.value, again.quantity),
        service.store.redis.At(again.idempotencyKey.value);
      && Alone(service.store.config, fp, env, cell) && cell.value.Some? && Settles(cell.value.value, fp)
      && cell.expires.Some? && env(2).now <= cell.expires.value
    modifies service.store.redis, service.circuit.redis
    ensures way.Unadmitted? || way.Shed? || way.Answered?
    ensures way.Answered? ==>
      var fp, rec := PayloadText(again.itemId.value, again.quantity),
        old(service.store.redis.At(again.idempotencyKey.value)).value.value;
      r == Returned(if rec.fp != "" && rec.fp != fp then CONFLICT else Repeated(rec))
  {
    ghost var fp, cell := PayloadText(again.itemId.value, again.quantity),
      service.store.redis.At(again.idempotencyKey.value);
    RecordIsFound(service.store.config, fp, env, cell);
    var k;
    ghost var report, reports;
    r, way, k, report, reports := service.CreateOrder(again, luck, env, circuits);
    if GotPastValidation(way) {
      RecordIsClaimed(service.store.config, fp, env, cell, way.phase, k);
      ReplayIsRepeated(cell.value.value);
    }
  }

  // ---- An order and its repetition ----

  // The reply to an order that is carried out.
  lemma RepliesOfAnOrder(luck: Luck)
    ensures luck.fault.Dropped? ==> WorkResult(luck) == ServiceResult(503, Body("", "", "", luck.fault.message, false))
    ensures luck.fault.Raised? ==> WorkResult(luck) == ServiceResult(500, Body("", "", "", luck.fault.message, false))
    ensures luck.fault.NoFault? ==>
      WorkResult(luck) ==
      if luck.inventoryBusy then ServiceResult(503, Body("", "", "", "inventory busy", false))
      else if luck.saveFails then ServiceResult(503, Body("", "", "", "order store unavailable", false))
      else ServiceResult(201, Body("ok", "", luck.orderId, "", false))
    ensures QueuedBody("circuit open") == Body("queued", "circuit open", "", "", false)
    ensures QueuedBody("timeout protected") == Body("queued", "timeout protected", "", "", false)
  {
  }

  // What a call that ran its order leaves on the key, unless the write is lost.
  lemma OutcomeIsLeft(c: Config, ph: Phase, luck: Luck, fp: string, cell: Entry<Record>, now: real)
    requires (ph.Owner? && ph.record.fp == fp) || ph == FailedOpen(fp)
    requires !luck.writeFails && (Succeeds(luck) || ph.Owner?)
    ensures
      var left, reply := KeyAfter(c, Ran(ph, WorkExit(luck)), cell, now), WorkResult(luck);
      && left.expires == Some(now + c.ttl as real)
      && left.value == Some(if Succeeds(luck) then Success(fp, reply.body.orderId, 201)
        else Failed(fp, reply.body.error, reply.statusCode))
  {
  }

  // The call wrote the record of its outcome: it is a success, or it owned the key.
  predicate Wrote(luck: Luck, way: Way) {
    way.Ran? && !luck.writeFails && (Succeeds(luck) || way.phase.Owner?)
  }

  method PlaceOrder(service: OrderService, command: Command, luck: Luck, env: nat -> World,
      circuits: nat -> BreakerStorage.Circuit)
    returns (r: Answer, way: Way)
    requires IsOrder(command) && HasKey(command)
    requires Orderly(env) && service.circuit.redis.time <= env(0).now && service.store.redis.time <= env(0).now
    requires SleepsWhileWaiting(service.store.config, PayloadText(command.itemId.value, command.quantity), env)
    requires service.circuit.redis as object != service.store.redis
    modifies service.store.redis, service.circuit.redis
    ensures way.Ran? ==> r == Returned(WorkResult(luck)) && service.circuit.redis.time <= service.store.redis.time
    ensures Wrote(luck, way) ==>
      var fp, cell := PayloadText(command.itemId.value, command.quantity),
        service.store.redis.At(command.idempotencyKey.value);
      && cell.expires == Some(service.store.redis.time + service.store.config.ttl as real)
      && cell.value == Some(if Succeeds(luck) then Success(fp, r.result.body.orderId, 201)
        else Failed(fp, r.result.body.error, r.result.statusCode))
  {
    var k;
    ghost var report, reports;
    r, way, k, report, reports := service.CreateOrder(command, luck, env, circuits);
    assert Before(env, 0, k);
    if Wrote(luck, way) {
      OutcomeIsLeft(service.store.config, way.phase, luck, PayloadText(command.itemId.value, command.quantity),
        env(k).cell, env(k).now);
    }
  }

  // Whatever record a call leaves at whatever instant, the next request comes later, is alone on the key and
  // reads it within the TTL.
  ghost predicate ComesWithin(c: Config, fp: string, next: (Entry<Record>, real) -> (nat -> World)) {
    forall cell, t ::
      var env := next(cell, t);
      Orderly(env) && Alone(c, fp, env, cell) && t <= env(0).now && env(2).now <= t + c.ttl as real
  }

  predicate SameOrder(a: Command, b: Command) {
    a.itemId == b.itemId && a.quantity == b.quantity
  }

  // An order that wrote its outcome and, within the TTL, another one on its key. The same order gets the same
  // order id, or the same status and error; any other is refused. The breaker may turn the second call away.
  method OrderTwice(service: OrderService, command: Command, luck: Luck, env: nat -> World, again: Command, luck2: Luck,
      next: (Entry<Record>, real) -> (nat -> World), circuits: nat -> BreakerStorage.Circuit)
    returns (first: Answer, way: Way, second: Answer, way2: Way)
    requires IsOrder(command) && HasKey(command) && IsOrder(again) && again.idempotencyKey == command.idempotencyKey
    requires Orderly(env) && service.circuit.redis.time <= env(0).now && service.store.redis.time <= env(0).now
    requires SleepsWhileWaiting(service.store.config, PayloadText(command.itemId.value, command.quantity), env)
    requires service.circuit.redis as object != service.store.redis && luck2.storeError == None
    requires ComesWithin(service.store.config, PayloadText(again.itemId.value, again.quantity), next)
    modifies service.store.redis, service.circuit.redis
    ensures Wrote(luck, way) ==>
        first == Returned(WorkResult(luck)) && (way2.Unadmitted? || way2.Shed? || way2.Answered?)
    ensures Wrote(luck, way) && way2.Answered? && !SameOrder(command, again) ==> second == Returned(CONFLICT)
    ensures Wrote(luck, way) && way2.Answered? && SameOrder(command, again) ==>
      second == Returned(
        if first.result.statusCode == 201 then ServiceResult(200, Body("ok", "", first.result.body.orderId, "", true))
        else ServiceResult(first.result.statusCode, Body("", "", "", first.result.body.error, true)))
  {
    first, way := PlaceOrder(service, command, luck, env, circuits);
    second, way2 := first, way;
    if Wrote(luck, way) {
      var env2 := next(service.store.redis.At(command.idempotencyKey.value), service.store.redis.time);
      second, way2 := AskAgain(service, again, luck2, env2, circuits);
      PayloadIsNotEmpty(command.itemId.value, command.quantity);
      Injective(command.itemId.value, command.quantity, again.itemId.value, again.quantity);
    }
  }

  lemma PayloadIsNotEmpty(item: string, quantity: int)
    ensures PayloadText(item, quantity) != ""
  {
    assert PayloadText(item, quantity)[0] == '{';
  }

  // ---- An order whose key is being processed ----

  predicate Untaken(cell: Entry<Record>, rec: Record) { cell.value == None || cell.value == Some(rec) }

  // Where a request can be that waits for an owner who never finishes.
  predicate Awaits(ph: Phase, fp: string, rec: Record) {
    match ph
    case Waiting(f) => f == fp
    case Polling(f, _) => f == fp
    case PollReading(f, _) => f == fp
    case PollJudging(f, _, seen) => f == fp && (seen == None || seen == Some(rec))
    case LastReading(f) => f == fp
    case LastJudging(f, seen) => f == fp && (seen == None || seen == Some(rec))
    case Done(outcome) => outcome == StillPending
    case _ => false
  }

  lemma AwaitsNext(c: Config, ph: Phase, w: World, fp: string, rec: Record)
    requires Awaits(ph, fp, rec) && Untaken(w.cell, rec) && rec.Processing? && (rec.fp == "" || rec.fp == fp)
    ensures
      var (after, e) := Resume(c, ph, w.cell, w.now, w.token);
      Awaits(after, fp, rec) && Untaken(e, rec)
  {
  }

  // Step j finds the key as the step before left it.
  predicate Kept(c: Config, env: nat -> World, path: nat -> Phase, j: nat) {
    env(j + 1).cell == Resume(c, path(j), env(j).cell, env(j).now, env(j).token).1
  }

  lemma AloneKeeps(c: Config, fp: string, env: nat -> World, cell: Entry<Record>)
    requires Alone(c, fp, env, cell)
    ensures forall j: nat :: Kept(c, env, Path(c, Start(fp), env), j)
  {
    forall j: nat
      ensures Kept(c, env, Path(c, Start(fp), env), j)
    {
      assert Undisturbed(c, fp, env, j);
    }
  }

  lemma {:induction false} AwaitsOn(c: Config, fp: string, env: nat -> World, path: nat -> Phase, rec: Record, i: nat,
      j: nat)
    requires Follows(c, env, path) && (forall m: nat :: Kept(c, env, path, m)) && i <= j
    requires Awaits(path(i), fp, rec) && Untaken(env(i).cell, rec)
    requires rec.Processing? && (rec.fp == "" || rec.fp == fp)
    ensures Awaits(path(j), fp, rec) && Untaken(env(j).cell, rec)
    decreases j - i
  {
    if i < j {
      AwaitsOn(c, fp, env, path, rec, i, j - 1);
      AwaitsNext(c, path(j - 1), env(j - 1), fp, rec);
      assert Moves(c, env, path, j - 1) && Kept(c, env, path, j - 1);
    }
  }

  // A live reservation of the same payload sends a request to wait, and then leaves it undecided.
  lemma PendingIsClaimed(c: Config, fp: string, env: nat -> World, cell: Entry<Record>, ph: Phase, k: nat)
    requires Alone(c, fp, env, cell) && Orderly(env) && Claimed(c, fp, None, env, ph, k)
    requires cell.value.Some? && !Settles(cell.value.value, fp) && cell.expires.Some?
    requires env(1).now <= cell.expires.value && !Stale(c, cell.value.value, env(3).now)
    ensures ph == Done(StillPending)
  {
    var path := Path(c, Start(fp), env);
    FirstCells(c, fp, env, cell);
    PathFollows(c, Start(fp), env);
    BuildMoves(c, fp, false, env, path, 0);
    LookMoves(c, fp, false, env, path, 2);
    ReserveIsDriven(c, fp, env);
    AloneKeeps(c, fp, env, cell);
    assert Kept(c, env, path, 2) && Kept(c, env, path, 3);
    assert path(4) == Waiting(fp);
    assert path(k) == Drive(c, Start(fp), env, k);
    AwaitsOn(c, fp, env, path, cell.value.value, 4, k);
  }

  // It is told that the order is being processed, even if the reservation runs out while it waits.
  method AskWhilePending(service: OrderService, again: Command, luck: Luck, env: nat -> World,
      circuits: nat -> BreakerStorage.Circuit)
    returns (r: Answer, way: Way)
    requires IsOrder(again) && HasKey(again) && luck.storeError == None
    requires Orderly(env) && service.circuit.redis.time <= env(0).now && service.store.redis.time <= env(0).now
    requires SleepsWhileWaiting(service.store.config, PayloadText(again.itemId.value, again.quantity), env)
    requires service.circuit.redis as object != service.store.redis
    requires
      var fp, cell := PayloadText(again.itemId.value, again.quantity),
        service.store.redis.At(again.idempotencyKey.value);
      && Alone(service.store.config, fp, env, cell) && cell.value.Some? && !Settles(cell.value.value, fp)
      && cell.expires.Some? && env(1).now <= cell.expires.value
      && env(3).now - cell.value.value.createdAt as real < service.store.config.pendingTtl as real
    modifies service.store.redis, service.circuit.redis
    ensures way.Unadmitted? || way.Shed? || r == Returned(ServiceResult(202, Body("processing", "", "", "", true)))
  {
    ghost var fp, cell := PayloadText(again.itemId.value, again.quantity),
      service.store.redis.At(again.idempotencyKey.value);
    var k;
    ghost var report, reports;
    r, way, k, report, reports := service.CreateOrder(again, luck, env, circuits);
    if GotPastValidation(way) {
      PendingIsClaimed(service.store.config, fp, env, cell, way.phase, k);
    }
  }
}

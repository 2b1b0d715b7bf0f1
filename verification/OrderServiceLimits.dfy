// What create_order leaves behind when a breaker command raises: the RedisError is caught nowhere in
// app/service/order_service.py, so it ends the call between the saved order and its finalization.

module OrderServiceLimits {
  import opened Options
  import opened Redis
  import opened Fingerprint
  import opened IdempotencyStore
  import opened OrderService
  import opened BreakerStorage
  import opened CircuitBreaker

  const CONFIG: Config := Config(15, 300, 120, 10)

  // Nobody else touches the key, and the clock stands still.
  function Alone(fp: string): nat -> World {
    i => World(0.0, if i < 2 then Missing() else Entry(Some(Processing(0, fp, 0)), None, None, Some(15.0)), 0)
  }

  lemma AloneReserves(fp: string)
    ensures ReserveOutcome(CONFIG, fp, Alone(fp)) == (Owned(Processing(0, fp, 0)), 2)
  {
    assert Alone(fp)(0) == Alone(fp)(1) == World(0.0, Missing(), 0);
    assert (0.0).Floor == 0;
  }

  lemma AloneOwns(fp: string, ph: Phase, k: nat)
    requires Claimed(CONFIG, fp, None, Alone(fp), ph, k)
    ensures ph == Owner(Processing(0, fp, 0)) && k == 2
  {
    var env, mine := Alone(fp), Processing(0, fp, 0);
    AloneReserves(fp);
    ReserveIsDriven(CONFIG, fp, env);
    assert Drive(CONFIG, Start(fp), env, 1) == Built(mine, false);
    assert Claimed(CONFIG, fp, None, env, Owner(mine), 2);
    ClaimIsDecided(CONFIG, fp, None, env, ph, k, Owner(mine), 2);
  }

  // The circuit is closed, the order is saved, and then record_success raises.
  function LostReport(orderId: string): Luck {
    Luck(NoError, None, false, NoFault, false, false, orderId, Some(0), false, 0)
  }

  // Any order sent with any key: no outcome is recorded, the reply is 503, and the reservation stays.
  method LostReportStrandsTheReservation(item: string, quantity: int, key: string, orderId: string)
    returns (reply: ServiceResult, left: Option<Record>, ghost reports: seq<bool>)
    requires item != "" && quantity > 0 && key != ""
    ensures Succeeds(LostReport(orderId)) && reports == []
    ensures reply == ServiceResult(503, ErrorBody("redis unavailable"))
    ensures left == Some(Processing(0, PayloadText(item, quantity), 0))
  {
    var service := NewService();
    ghost var fp := PayloadText(item, quantity);
    AloneReserves(fp);
    var r, way, k;
    ghost var report;
    r, way, k, report, reports := service.CreateOrder(
      Command(Some(item), quantity, Some(key)), LostReport(orderId), Alone(PayloadText(item, quantity)),
        (_: nat) => NewCircuit());
    AloneOwns(fp, way.phase, k);
    reply := HttpReply(r);
    left := service.store.redis.Get(key);
  }

  method NewService() returns (service: OrderService)
    ensures service.resilience && service.store.config == CONFIG
    ensures fresh(service.store.redis) && fresh(service.circuit.redis)
        && service.circuit.redis as object != service.store.redis
    ensures service.store.redis.time == service.circuit.redis.time == 0.0
    ensures service.circuit.State() == NewCircuit()
  {
    var redis := new FakeRedis<string, Record>();
    var store := new Store(CONFIG, redis);
    var breakerRedis := new FakeRedis<Key, real>();
    var circuit := new RedisCircuitBreakerStorage(breakerRedis, Rule(0.5, 100, 10, 8, 30));
    service := new OrderService(store, circuit, true);
  }
}

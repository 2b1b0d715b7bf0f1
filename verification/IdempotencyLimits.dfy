// What the hypotheses of IdempotencyProtocol are needed for: runs that break exclusivity
// when one of them is dropped, and how far the floored second moves the stale instant.

module IdempotencyLimits {
  import opened Options
  import opened Redis
  import opened IdempotencyStore
  import opened IdempotencyProtocol

  // One more move that keeps the hypotheses of a run, given the state it starts from.
  lemma Extend(c: Config, r: Run, s: State, m: Move)
    requires Possible(c, r) && Exec(c, r) == s && Enabled(s, m)
    ensures Possible(c, Then(r, m)) && Exec(c, Then(r, m)) == Next(c, s, m)
    ensures NoStoreError(r) && !m.StoreError? ==> NoStoreError(Then(r, m))
    ensures FinalizeSucceeds(r) && !(m.Quit? && m.exit.FinalizeLost?) ==> FinalizeSucceeds(Then(r, m))
    ensures TimelyRun(c, r) && Timely(c, Next(c, s, m)) ==> TimelyRun(c, Then(r, m))
  {
  }

  // Two requests arrive, and the first one reserves the key.
  function FirstReserves(fp: string, at: real): Run {
    Then(Then(Then(Then(Then(Begin, Arrive(0, fp)), Arrive(1, fp)), Tick(at)), Proceed(0)), Proceed(0))
  }

  function AfterFirst(c: Config, fp: string, at: real): State {
    State(at, Entry(Some(Processing(0, fp, at.Floor)), None, None, Some(at + c.pendingTtl as real)),
          map[0 := Owner(Processing(0, fp, at.Floor)), 1 := Start(fp)], 1, [Reserved(0, at)])
  }

  lemma FirstReservesState(c: Config, fp: string, at: real)
    requires 0.0 <= at
    ensures
      var r := FirstReserves(fp, at);
      Possible(c, r) && NoStoreError(r) && FinalizeSucceeds(r) && TimelyRun(c, r) &&
      Exec(c, r) == AfterFirst(c, fp, at).(nextToken := 2)
  {
    var r0 := Then(Begin, Arrive(0, fp));
    var s0 := INITIAL.(requests := map[0 := Start(fp)]);
    Extend(c, Begin, INITIAL, Arrive(0, fp));
    var s1 := INITIAL.(requests := map[0 := Start(fp), 1 := Start(fp)]);
    Extend(c, r0, s0, Arrive(1, fp));
    var r1 := Then(r0, Arrive(1, fp));
    Extend(c, r1, s1, Tick(at));
    var r2 := Then(r1, Tick(at));
    Extend(c, r2, s1.(now := at), Proceed(0));
    var r3 := Then(r2, Proceed(0));
    var s3 := State(at, Missing(), map[0 := Built(Processing(0, fp, at.Floor), false), 1 := Start(fp)], 1, []);
    Extend(c, r3, s3, Proceed(0));
  }

  // A request whose reserve raised StorageException finalizes anyway: two orders for one key at one
  // instant, with every owner on time and every terminal write successful.
  lemma StoreErrorAllowsTwoOrders(c: Config, fp: string)
    ensures
      var r := Then(Then(Then(FirstReserves(fp, 0.0), StoreError(1)), Quit(1, Finalize("y"))), Quit(0, Finalize("x")));
      && Possible(c, r) && TimelyRun(c, r) && FinalizeSucceeds(r)
      && Exec(c, r).now == 0.0
      && Exec(c, r).requests == map[0 := Done(Created("x")), 1 := Done(Created("y"))]
  {
    FirstReservesState(c, fp, 0.0);
    var r0 := FirstReserves(fp, 0.0);
    var s0 := AfterFirst(c, fp, 0.0).(nextToken := 2);
    Extend(c, r0, s0, StoreError(1));
    var r1 := Then(r0, StoreError(1));
    var s1 := s0.(requests := map[0 := Owner(Processing(0, fp, 0)), 1 := FailedOpen(fp)]);
    Extend(c, r1, s1, Quit(1, Finalize("y")));
    var s2 := Next(c, s1, Quit(1, Finalize("y")));
    assert s2.requests == map[0 := Owner(Processing(0, fp, 0)), 1 := Done(Created("y"))];
    Extend(c, Then(r1, Quit(1, Finalize("y"))), s2, Quit(0, Finalize("x")));
  }

  // Request 1 waits until the pending TTL is over and takes the reservation of request 0 over.
  function TakesOver(c: Config, r: Run, at: real): Run {
    Then(Then(Then(FindsStale(c, r, at), Proceed(1)), Proceed(1)), Proceed(1))
  }

  function FindsStale(c: Config, r: Run, at: real): Run {
    Then(Then(Then(Then(Then(r, Tick((at.Floor + c.pendingTtl) as real - at)), Proceed(1)), Proceed(1)), Proceed(1)),
      Proceed(1))
  }

  function TakeOverCell(c: Config, fp: string, at: real): Entry<Record> {
    Entry(Some(Processing(0, fp, at.Floor)), None, None, Some(at + c.pendingTtl as real))
  }

  // The first two steps: build a record and find the key taken.
  lemma LosesSetNx(c: Config, r: Run, s: State, fp: string, at: real, ph: Phase)
    requires 0.0 <= at && Possible(c, r) && Exec(c, r) == s && NoStoreError(r)
    requires s.now == (at.Floor + c.pendingTtl) as real && s.cell == TakeOverCell(c, fp, at)
    requires s.requests == map[0 := ph, 1 := Start(fp)]
    ensures
      var q := Then(Then(r, Proceed(1)), Proceed(1));
      Possible(c, q) && NoStoreError(q) && (TimelyRun(c, r) && !ph.Owner? ==> TimelyRun(c, q)) &&
      Exec(c, q).now == s.now && Exec(c, q).cell == s.cell
        && Exec(c, q).requests == map[0 := ph, 1 := Reading(fp, false)]
  {
    Extend(c, r, s, Proceed(1));
    var s1 := s.(requests := map[0 := ph, 1 := Built(Processing(s.nextToken, fp, at.Floor + c.pendingTtl), false)],
      nextToken := s.nextToken + 1);
    assert Next(c, s, Proceed(1)) == s1;
    Extend(c, Then(r, Proceed(1)), s1, Proceed(1));
    assert Next(c, s1, Proceed(1)).requests == map[0 := ph, 1 := Reading(fp, false)];
  }

  // The next two: load the reservation of request 0 and find it stale.
  lemma FindsItStale(c: Config, r: Run, s: State, fp: string, at: real, ph: Phase)
    requires 0.0 <= at && Possible(c, r) && Exec(c, r) == s && NoStoreError(r)
    requires s.now == (at.Floor + c.pendingTtl) as real && s.cell == TakeOverCell(c, fp, at)
    requires s.requests == map[0 := ph, 1 := Reading(fp, false)]
    ensures
      var q := Then(Then(r, Proceed(1)), Proceed(1));
      Possible(c, q) && NoStoreError(q) && (TimelyRun(c, r) && !ph.Owner? ==> TimelyRun(c, q)) &&
      Exec(c, q).now == s.now && Exec(c, q).cell == s.cell
        && Exec(c, q).requests == map[0 := ph, 1 := Taking(fp, Processing(0, fp, at.Floor))]
  {
    Extend(c, r, s, Proceed(1));
    var s1 := Next(c, s, Proceed(1));
    assert s1.requests == map[0 := ph, 1 := Judging(fp, Some(Processing(0, fp, at.Floor)), false)] && s1.cell == s.cell;
    Extend(c, Then(r, Proceed(1)), s1, Proceed(1));
    assert Next(c, s1, Proceed(1)).requests == map[0 := ph, 1 := Taking(fp, Processing(0, fp, at.Floor))];
  }

  // The next: delete it.
  lemma DeletesIt(c: Config, r: Run, s: State, fp: string, at: real, ph: Phase)
    requires 0.0 <= at && Possible(c, r) && Exec(c, r) == s && NoStoreError(r)
    requires s.now == (at.Floor + c.pendingTtl) as real && s.cell == TakeOverCell(c, fp, at)
    requires s.requests == map[0 := ph, 1 := Taking(fp, Processing(0, fp, at.Floor))]
    ensures
      var q := Then(r, Proceed(1));
      Possible(c, q) && NoStoreError(q) && (TimelyRun(c, r) && !ph.Owner? ==> TimelyRun(c, q)) &&
      Exec(c, q).now == s.now && Exec(c, q).cell == Missing()
        && Exec(c, q).requests == map[0 := ph, 1 := Rebuilding(fp)]
  {
    Extend(c, r, s, Proceed(1));
    assert Next(c, s, Proceed(1)).requests == map[0 := ph, 1 := Rebuilding(fp)];
  }

  // The last two: build again and win the SET NX.
  lemma WinsSetNx(c: Config, r: Run, s: State, fp: string, at: real, ph: Phase)
    requires Possible(c, r) && Exec(c, r) == s && NoStoreError(r)
    requires s.now == (at.Floor + c.pendingTtl) as real && s.cell == Missing()
        && s.requests == map[0 := ph, 1 := Rebuilding(fp)]
    ensures
      var q := Then(Then(r, Proceed(1)), Proceed(1));
      Possible(c, q) && NoStoreError(q) && (TimelyRun(c, r) && !ph.Owner? ==> TimelyRun(c, q)) &&
      Exec(c, q).now == s.now && Exec(c, q).requests.Keys == {0, 1} && Exec(c, q).requests[0] == ph &&
      Exec(c, q).requests[1].Owner? && Exec(c, q).requests[1].record.fp == fp
  {
    Extend(c, r, s, Proceed(1));
    var built := Processing(s.nextToken, fp, at.Floor + c.pendingTtl);
    var s1 := Next(c, s, Proceed(1));
    assert s1.requests == map[0 := ph, 1 := Built(built, true)];
    Extend(c, Then(r, Proceed(1)), s1, Proceed(1));
    assert Next(c, s1, Proceed(1)).requests == map[0 := ph, 1 := Owner(built)];
  }

  // The pending TTL is over: the first four steps.
  lemma TakeOverLooks(c: Config, r: Run, s: State, fp: string, at: real, ph: Phase)
    requires 0.0 <= at && Possible(c, r) && Exec(c, r) == s && NoStoreError(r)
    requires s.now == (at.Floor + c.pendingTtl) as real && s.cell == TakeOverCell(c, fp, at)
    requires s.requests == map[0 := ph, 1 := Start(fp)]
    ensures
      var q := Then(Then(Then(Then(r, Proceed(1)), Proceed(1)), Proceed(1)), Proceed(1));
      Possible(c, q) && NoStoreError(q) && (TimelyRun(c, r) && !ph.Owner? ==> TimelyRun(c, q)) &&
      Exec(c, q).now == s.now && Exec(c, q).cell == s.cell &&
      Exec(c, q).requests == map[0 := ph, 1 := Taking(fp, Processing(0, fp, at.Floor))]
  {
    LosesSetNx(c, r, s, fp, at, ph);
    var r2 := Then(Then(r, Proceed(1)), Proceed(1));
    FindsItStale(c, r2, Exec(c, r2), fp, at, ph);
  }

  lemma TakeOverBegins(c: Config, r: Run, s: State, fp: string, at: real, ph: Phase)
    requires 0.0 <= at && Possible(c, r) && Exec(c, r) == s && NoStoreError(r)
    requires s.now == at && s.cell == TakeOverCell(c, fp, at) && s.requests == map[0 := ph, 1 := Start(fp)]
    ensures
      var q := FindsStale(c, r, at);
      Possible(c, q) && NoStoreError(q) && (TimelyRun(c, r) && !ph.Owner? ==> TimelyRun(c, q)) &&
      Exec(c, q).now == (at.Floor + c.pendingTtl) as real && Exec(c, q).cell == s.cell &&
      Exec(c, q).requests == map[0 := ph, 1 := Taking(fp, Processing(0, fp, at.Floor))]
  {
    var tick := Tick((at.Floor + c.pendingTtl) as real - at);
    Extend(c, r, s, tick);
    TakeOverLooks(c, Then(r, tick), Next(c, s, tick), fp, at, ph);
  }

  lemma TakeOverWorks(c: Config, r: Run, s: State, fp: string, at: real, ph: Phase)
    requires 0.0 <= at && Possible(c, r) && Exec(c, r) == s && NoStoreError(r)
    requires s.now == at && s.cell == TakeOverCell(c, fp, at) && s.requests == map[0 := ph, 1 := Start(fp)]
    ensures
      var q := TakesOver(c, r, at);
      Possible(c, q) && NoStoreError(q) && (TimelyRun(c, r) && !ph.Owner? ==> TimelyRun(c, q)) &&
      Exec(c, q).now == (at.Floor + c.pendingTtl) as real && Exec(c, q).requests.Keys == {0, 1}
        && Exec(c, q).requests[0] == ph &&
      Exec(c, q).requests[1].Owner? && Exec(c, q).requests[1].record.fp == fp
  {
    TakeOverBegins(c, r, s, fp, at, ph);
    var r5 := FindsStale(c, r, at);
    DeletesIt(c, r5, Exec(c, r5), fp, at, ph);
    var r6 := Then(r5, Proceed(1));
    WinsSetNx(c, r6, Exec(c, r6), fp, at, ph);
  }

  // Staleness counts from the floored second, so for every start inside a second a request that owns the key for less
  // than the pending
  // TTL can lose it to another owner.
  lemma FlooredSecondAllowsTwoOwners(c: Config, fp: string, at: real)
    requires 0.0 <= at && at.Floor as real < at
    ensures
      var r := TakesOver(c, FirstReserves(fp, at), at);
      && Possible(c, r) && NoStoreError(r)
      && Exec(c, r).now - at < c.pendingTtl as real
      && Exec(c, r).requests.Keys == {0, 1} && Exec(c, r).requests[0].Owner? && Exec(c, r).requests[1].Owner?
  {
    FirstReservesState(c, fp, at);
    TakeOverWorks(c, FirstReserves(fp, at), AfterFirst(c, fp, at).(nextToken := 2), fp, at,
      Owner(Processing(0, fp, at.Floor)));
  }

  // How much the floored second costs: less than one second.
  lemma StaleWithinASecond(c: Config, token: nat, fp: string, startedAt: real, now: real)
    ensures now >= startedAt + c.pendingTtl as real ==> Stale(c, Processing(token, fp, startedAt.Floor), now)
    ensures Stale(c, Processing(token, fp, startedAt.Floor), now) ==> now > startedAt + c.pendingTtl as real - 1.0
  {
  }

  function LosesFinalize(fp: string): Run {
    Then(FirstReserves(fp, 0.0), Quit(0, FinalizeLost("x")))
  }

  lemma LostFinalizeIsTakenOver(c: Config, fp: string)
    ensures
      var r := TakesOver(c, LosesFinalize(fp), 0.0);
      && Possible(c, r) && NoStoreError(r) && TimelyRun(c, r) && Exec(c, r).now == c.pendingTtl as real
      && Exec(c, r).requests.Keys == {0, 1} && Exec(c, r).requests[0] == Done(Created("x"))
      && Exec(c, r).requests[1].Owner?
  {
    FirstReservesState(c, fp, 0.0);
    var s, quit := AfterFirst(c, fp, 0.0).(nextToken := 2), Quit(0, FinalizeLost("x"));
    Extend(c, FirstReserves(fp, 0.0), s, quit);
    TakeOverWorks(c, LosesFinalize(fp), Next(c, s, quit), fp, 0.0, Done(Created("x")));
  }

  // A lost finalize leaves the reservation to go stale, and the key then yields a second order.
  lemma LostFinalizeAllowsTwoOrders(c: Config, fp: string)
    ensures
      var r := Then(TakesOver(c, LosesFinalize(fp), 0.0), Quit(1, Finalize("y")));
      && Possible(c, r) && NoStoreError(r) && TimelyRun(c, r)
      && Exec(c, r).now == c.pendingTtl as real
      && Exec(c, r).requests == map[0 := Done(Created("x")), 1 := Done(Created("y"))]
  {
    LostFinalizeIsTakenOver(c, fp);
    var r := TakesOver(c, LosesFinalize(fp), 0.0);
    Extend(c, r, Exec(c, r), Quit(1, Finalize("y")));
  }
}

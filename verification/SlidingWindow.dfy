// A sorted set that is pruned at every use and expires as a whole, and the full history it
// stands for. Both the sliding limiter and the two windows of the circuit breaker rest on it.

module SlidingWindow {
  import opened Options
  import opened Redis

  datatype Sample = Sample(at: real, failure: bool)

  // The samples of a history that count: those after the cutoff, or only the failures among them.
  function Counted(log: seq<Sample>, cutoff: real, failuresOnly: bool): set<nat> {
    set i: nat | i < |log| && log[i].at > cutoff && (failuresOnly ==> log[i].failure)
  }

  // How many samples count, and how many members a key has.
  function Tally(log: seq<Sample>, cutoff: real, failuresOnly: bool): nat {
    |Counted(log, cutoff, failuresOnly)|
  }

  function Size<V>(e: Entry<V>): nat {
    |Members(e)|
  }

  lemma SameSize<V>(e: Entry<V>, log: seq<Sample>, cutoff: real, failuresOnly: bool)
    requires Members(e).Keys == Counted(log, cutoff, failuresOnly)
    ensures Size(e) == Tally(log, cutoff, failuresOnly)
  {
    assert |Members(e)| == |Members(e).Keys|;
  }

  ghost predicate InThePast(log: seq<Sample>, now: real) {
    && (forall i | 0 <= i < |log| :: log[i].at <= now)
    && (forall i, j | 0 <= i < j < |log| :: log[i].at <= log[j].at)
  }

  // Every member is the sample with its number, and every sample that still counts is a member
  // of a key that outlives it.
  ghost predicate Tracks<V>(e: Entry<V>, log: seq<Sample>, now: real, window: real, ttl: real, failuresOnly: bool) {
    && (forall m | m in Members(e) :: m < |log| && Members(e)[m] == log[m].at && (failuresOnly ==> log[m].failure))
    && (forall i | i in Counted(log, now - window, failuresOnly) ::
          i in Members(e) && (e.expires.Some? ==> e.expires.value >= log[i].at + ttl))
  }

  lemma OutlivesItsSamples<V>(e: Entry<V>, log: seq<Sample>, now: real, window: real, ttl: real, failuresOnly: bool,
      i: nat)
    requires Tracks(e, log, now, window, ttl, failuresOnly) && ttl >= window
    requires i in Counted(log, now - window, failuresOnly)
    ensures !Expired(e, now)
  {
  }

  // No live sample is lost: after the key is dropped if expired and then pruned, the set holds exactly
  // the samples of the trailing window. It is enough that the key lives at least a window long.
  lemma RefreshIsExact<V>(e: Entry<V>, log: seq<Sample>, now: real, window: real, ttl: real, failuresOnly: bool)
    requires Tracks(e, log, now, window, ttl, failuresOnly) && ttl >= window
    ensures Members(Refresh(e, now - window, now)).Keys == Counted(log, now - window, failuresOnly)
    ensures Tracks(Refresh(e, now - window, now), log, now, window, ttl, failuresOnly)
  {
    forall i | i in Counted(log, now - window, failuresOnly)
      ensures i in Members(Refresh(e, now - window, now)) && Members(Refresh(e, now - window, now))[i] == log[i].at
    {
      OutlivesItsSamples(e, log, now, window, ttl, failuresOnly, i);
    }
  }

  lemma PruneIsExact<V>(e: Entry<V>, log: seq<Sample>, now: real, window: real, ttl: real, failuresOnly: bool)
    requires Tracks(e, log, now, window, ttl, failuresOnly)
    ensures Members(Prune(e, now - window)).Keys == Counted(log, now - window, failuresOnly)
    ensures Tracks(Prune(e, now - window), log, now, window, ttl, failuresOnly)
  {
  }

  lemma AddKeepsTrack<V>(e: Entry<V>, log: seq<Sample>, s: Sample, now: real, window: real, ttl: real,
      failuresOnly: bool)
    requires Tracks(e, log, now, window, ttl, failuresOnly) && InThePast(log, now)
    requires s.at == now && (failuresOnly ==> s.failure)
    ensures Tracks(AddMember(e, |log|, now, ttl, now), log + [s], now, window, ttl, failuresOnly)
  {
  }

  // A success leaves the failure window as it is.
  lemma OtherSample<V>(e: Entry<V>, log: seq<Sample>, s: Sample, now: real, window: real, ttl: real)
    requires Tracks(e, log, now, window, ttl, true) && !s.failure
    ensures Tracks(e, log + [s], now, window, ttl, true)
    ensures Counted(log + [s], now - window, true) == Counted(log, now - window, true)
  {
  }

  lemma NewSampleCounts(log: seq<Sample>, s: Sample, cutoff: real, failuresOnly: bool)
    requires s.at > cutoff && (failuresOnly ==> s.failure)
    ensures Counted(log + [s], cutoff, failuresOnly) == Counted(log, cutoff, failuresOnly) + {|log|}
  {
  }

  lemma KeysAfterAdd<V>(e: Entry<V>, member: nat, score: real, ttl: real, now: real)
    ensures Members(AddMember(e, member, score, ttl, now)).Keys == Members(e).Keys + {member}
  {
  }

  // The window of a key after a script added one sample to it.
  function Extended<V>(e: Entry<V>, member: nat, window: real, ttl: real, now: real): Entry<V> {
    AddMember(Refresh(e, now - window, now), member, now, ttl, now)
  }

  lemma ExtendedKeys<V>(e: Entry<V>, log: seq<Sample>, s: Sample, window: real, ttl: real, now: real,
      failuresOnly: bool)
    requires Members(Refresh(e, now - window, now)).Keys == Counted(log, now - window, failuresOnly)
    requires window > 0.0 && s.at == now && (failuresOnly ==> s.failure)
    ensures Size(Extended(e, |log|, window, ttl, now)) == Tally(log + [s], now - window, failuresOnly)
  {
    NewSampleCounts(log, s, now - window, failuresOnly);
    KeysAfterAdd(Refresh(e, now - window, now), |log|, now, ttl, now);
    SameSize(Extended(e, |log|, window, ttl, now), log + [s], now - window, failuresOnly);
  }

  lemma ExtendIsExact<V>(e: Entry<V>, log: seq<Sample>, s: Sample, window: real, ttl: real, now: real,
      failuresOnly: bool)
    requires Tracks(e, log, now, window, ttl, failuresOnly) && InThePast(log, now) && ttl >= window > 0.0
    requires s.at == now && (failuresOnly ==> s.failure)
    ensures Tracks(Extended(e, |log|, window, ttl, now), log + [s], now, window, ttl, failuresOnly)
    ensures Size(Extended(e, |log|, window, ttl, now)) == Tally(log + [s], now - window, failuresOnly)
  {
    RefreshIsExact(e, log, now, window, ttl, failuresOnly);
    AddKeepsTrack(Refresh(e, now - window, now), log, s, now, window, ttl, failuresOnly);
    ExtendedKeys(e, log, s, window, ttl, now, failuresOnly);
  }

  // A success only prunes the failure window.
  lemma SuccessIsExact<V>(e: Entry<V>, log: seq<Sample>, s: Sample, window: real, ttl: real, now: real)
    requires Tracks(e, log, now, window, ttl, true) && ttl >= window && !s.failure
    ensures Tracks(Refresh(e, now - window, now), log + [s], now, window, ttl, true)
    ensures Size(Refresh(e, now - window, now)) == Tally(log + [s], now - window, true)
  {
    RefreshIsExact(e, log, now, window, ttl, true);
    OtherSample(Refresh(e, now - window, now), log, s, now, window, ttl);
    SameSize(Refresh(e, now - window, now), log + [s], now - window, true);
  }

  lemma TimePasses<V>(e: Entry<V>, log: seq<Sample>, now: real, later: real, window: real, ttl: real,
      failuresOnly: bool)
    requires Tracks(e, log, now, window, ttl, failuresOnly) && now <= later
    ensures Tracks(e, log, later, window, ttl, failuresOnly)
  {
    assert Counted(log, later - window, failuresOnly) <= Counted(log, now - window, failuresOnly);
  }
}

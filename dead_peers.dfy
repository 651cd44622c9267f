/** The dead-peer cache: `last_errored` maps a URL to the time (whole seconds) of its
    last failed contact, and a URL is avoided while that failure is fresh. */
module DeadPeers {
  import opened Types

  /** LAST_ERRORED_CACHE_TIME, in seconds. */
  const LastErroredCacheTime: int := 30

  /** A peer is skipped while less than LastErroredCacheTime has passed since its last failure. */
  predicate IsDead(lastErrored: map<Url, int>, u: Url, now: int)
  {
    u in lastErrored && now - lastErrored[u] < LastErroredCacheTime
  }

  /** A failure at time t keeps the peer away exactly during [t, t + 30) (and before t,
      if the clock runs backwards); from t + 30 on it is contacted again. */
  lemma DeadWindow(lastErrored: map<Url, int>, u: Url, t: int, now: int)
    requires u in lastErrored && lastErrored[u] == t
    ensures IsDead(lastErrored, u, now) <==> now < t + 30
    ensures !IsDead(lastErrored, u, t + 30)
  {
  }

  /** A URL that never failed is never skipped as dead. */
  lemma NeverFailedNotDead(lastErrored: map<Url, int>, u: Url, now: int)
    requires u !in lastErrored
    ensures !IsDead(lastErrored, u, now)
  {
  }

  /** Stamping one URL changes the verdict for no other URL. */
  lemma StampOthers(lastErrored: map<Url, int>, u: Url, t: int, v: Url, now: int)
    requires v != u
    ensures IsDead(lastErrored[u := t], v, now) == IsDead(lastErrored, v, now)
  {
  }

  /** A URL just stamped at `now` is dead at `now`. */
  lemma StampedIsDead(lastErrored: map<Url, int>, u: Url, now: int)
    ensures IsDead(lastErrored[u := now], u, now)
  {
  }
}

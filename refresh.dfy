/** The refresh gate of `get_peers`: a gossip cycle runs only when the registry is stale
    or has been invalidated, and no other cycle is in progress. */
module Refresh {

  /** One hour, in seconds. */
  const StalenessWindow: int := 3600

  /** A cycle is due when more than an hour has passed since the last update or the cache was
      invalidated, and no cycle is already running (app.py:310-311). */
  predicate ShouldRefresh(lastUpdate: int, invalidated: bool, fetching: bool, now: int)
  {
    (now - StalenessWindow > lastUpdate || invalidated) && !fetching
  }

  /** The application starts with last_peers_update at the epoch, no invalidation and no
      fetch in progress, so any real clock reading opens the gate. */
  lemma FirstCallRefreshes(now: int)
    requires now > StalenessWindow
    ensures ShouldRefresh(0, false, false, now)
  {
  }

  /** Within one hour of the last update and without invalidation, no cycle runs;
      staleness is strict: at exactly one hour the gate is still closed. */
  lemma FreshStaysClosed(lastUpdate: int, fetching: bool, now: int)
    requires now - lastUpdate <= StalenessWindow
    ensures !ShouldRefresh(lastUpdate, false, fetching, now)
  {
  }

  /** While a cycle is in progress the gate is closed whatever else holds. */
  lemma FetchingClosesGate(lastUpdate: int, invalidated: bool, now: int)
    ensures !ShouldRefresh(lastUpdate, invalidated, true, now)
  {
  }

  /** An invalidated cache opens the gate whenever no cycle is running. */
  lemma InvalidatedOpensGate(lastUpdate: int, now: int)
    ensures ShouldRefresh(lastUpdate, true, false, now)
  {
  }
}

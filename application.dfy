/** The federation service's `Application` object: the registry, the refresh state, the
    dead-peer cache and the in-flight sets, and the request handlers that act on them. */
module Federation {
  import opened Types
  import opened DeadPeers
  import Refresh
  import Gossip
  import Notify
  import Search

  /** How a notify request ends; both are answered with status 200. */
  datatype NotifyOutcome = Duplicate | Accepted

  /** The application's fields at one moment. */
  datatype State = State(
    registry: set<Url>,
    lastPeersUpdate: int,
    invalidated: bool,
    connected: bool,
    fetching: bool,
    errored: map<Url, int>,
    contacting: set<Url>,
    notifying: set<Url>)

  /** What `get_peers` does to the application: nothing when the refresh gate is closed;
      otherwise it stamps `last_peers_update`, runs one gossip cycle over the registry
      contents (listed in `order`), carries the cycle's `last_errored` and connected flag
      over, adds the cycle's discoveries to the invalidation flag, and releases the fetch
      guard. The registry and the notifying set are never changed. */
  ghost predicate GetPeersEffect(s: State, t: State, self: Url, net: Network, now: int, order: seq<Url>)
  {
    && t.registry == s.registry
    && t.notifying == s.notifying
    && if Refresh.ShouldRefresh(s.lastPeersUpdate, s.invalidated, s.fetching, now) then
         var r := Gossip.Run(Gossip.Seed(order, self, s.errored, s.connected), net, now);
         && NoDup(order) && Elems(order) == s.registry
         && t.lastPeersUpdate == now && !t.fetching && t.contacting == {}
         && t.errored == r.errored && t.connected == r.connected
         && t.invalidated == (s.invalidated || true in r.results)
       else t == s
  }

  /** The answers recorded by the search fan-out over `order`. */
  function Responses<T>(order: seq<Url>, answers: map<Url, Search.Response<T>>): seq<Option<Search.Response<T>>>
  {
    seq(|order|, i requires 0 <= i < |order| => Get(answers, order[i]))
  }

  class Application {
    /** CHORD_URL: this node's own base URL. */
    const selfUrl: Url
    /** The `peers` table of the database. */
    var registry: set<Url>
    /** `last_peers_update`, in seconds since the epoch. */
    var lastPeersUpdate: int
    var peerCacheInvalidated: bool
    var connectedToPeerNetwork: bool
    var fetchingPeers: bool
    var lastErrored: map<Url, int>
    var contacting: set<Url>
    var notifying: set<Url>

    /** Outside a gossip cycle no peer is being contacted. */
    ghost predicate Valid()
      reads this
    {
      !fetchingPeers ==> contacting == {}
    }

    function Snapshot(): State
      reads this
    {
      State(registry, lastPeersUpdate, peerCacheInvalidated, connectedToPeerNetwork, fetchingPeers,
            lastErrored, contacting, notifying)
    }

    /** A fresh application over an existing database: last update at the epoch, nothing
        invalidated, connected, fetching, failed, contacted or notifying. */
    constructor (selfUrl: Url, db: set<Url>)
      ensures Valid()
      ensures this.selfUrl == selfUrl && registry == db
      ensures lastPeersUpdate == 0 && !peerCacheInvalidated && !connectedToPeerNetwork && !fetchingPeers
      ensures lastErrored == map[] && contacting == {} && notifying == {}
    {
      this.selfUrl := selfUrl;
      registry := db;
      lastPeersUpdate := 0;
      peerCacheInvalidated := false;
      connectedToPeerNetwork := false;
      fetchingPeers := false;
      lastErrored := map[];
      contacting := {};
      notifying := {};
    }

    /** `peer_worker`, as the only worker: drains the queue shared with `get_peers`,
        contacting each live, untried peer once. The queue, check-set, tried set, results,
        `last_errored` and the connected flag end as one complete cycle leaves them. */
    method PeerWorker(peers: set<Url>, queue0: seq<Url>, checkSet0: set<Url>, attempted0: set<Url>,
                      results0: seq<bool>, net: Network, now: int)
      returns (queue: seq<Url>, checkSet: set<Url>, attempted: set<Url>, results: seq<bool>)
      requires contacting == {}
      modifies this`lastErrored, this`contacting, this`connectedToPeerNetwork
      ensures contacting == {}
      ensures var r := Gossip.Run(Gossip.Cycle(queue0, checkSet0, attempted0, peers, old(lastErrored),
                                               old(connectedToPeerNetwork), results0, []), net, now);
        && queue == r.queue && checkSet == r.checkSet && attempted == r.attempted && results == r.results
        && lastErrored == r.errored && connectedToPeerNetwork == r.connected
    {
      var known := peers;
      queue, checkSet, attempted, results := queue0, checkSet0, attempted0, results0;
      ghost var contacts: seq<Gossip.Contact> := [];
      ghost var start := Gossip.Cycle(queue0, checkSet0, attempted0, peers, lastErrored, connectedToPeerNetwork, results0, []);
      while queue != []
        invariant contacting == {}
        invariant Gossip.Run(Gossip.Cycle(queue, checkSet, attempted, known, lastErrored, connectedToPeerNetwork,
                                          results, contacts), net, now) == Gossip.Run(start, net, now)
        decreases |Gossip.Unattempted(Gossip.Cycle(queue, checkSet, attempted, known, lastErrored,
                                                   connectedToPeerNetwork, results, contacts), net)|, |queue|
      {
        ghost var before := Gossip.Cycle(queue, checkSet, attempted, known, lastErrored, connectedToPeerNetwork, results, contacts);
        Gossip.StepShrinks(before, net, now);
        queue, checkSet, attempted, known, results, contacts := HandlePeer(queue, checkSet, attempted, known, results, contacts, net, now);
      }
    }

    /** One iteration of `peer_worker`: dequeue a peer; skip it if dead or already tried;
        otherwise mark it as being contacted, notify it and read its peer list (stamping it
        dead on failure), enqueue what it reports, record the result flag, and mark it tried. */
    method HandlePeer(queue0: seq<Url>, checkSet0: set<Url>, attempted0: set<Url>, known0: set<Url>,
                      results0: seq<bool>, ghost contacts0: seq<Gossip.Contact>, net: Network, now: int)
      returns (queue: seq<Url>, checkSet: set<Url>, attempted: set<Url>, known: set<Url>,
               results: seq<bool>, ghost contacts: seq<Gossip.Contact>)
      requires queue0 != [] && contacting == {}
      modifies this`lastErrored, this`contacting, this`connectedToPeerNetwork
      ensures contacting == {}
      ensures Gossip.Cycle(queue, checkSet, attempted, known, lastErrored, connectedToPeerNetwork, results, contacts)
           == Gossip.Step(Gossip.Cycle(queue0, checkSet0, attempted0, known0, old(lastErrored),
                                       old(connectedToPeerNetwork), results0, contacts0), net, now)
    {
      queue, checkSet, attempted, known, results, contacts := queue0, checkSet0, attempted0, known0, results0, contacts0;
      var peer := queue[0];
      queue := queue[1..];
      if IsDead(lastErrored, peer, now) {
        // Avoid repetitively hitting dead nodes.
        checkSet := checkSet - {peer};
      } else if peer in attempted {
        checkSet := checkSet - {peer};
      } else {
        contacting := contacting + {peer};
        var reply := Ask(net, peer);
        var reported: seq<Url> := [];
        if reply.Ok? {
          connectedToPeerNetwork := true;
          reported := reply.value;
        } else {
          lastErrored := lastErrored[peer := now];
        }
        assert reported == Gossip.Reported(reply) && contacting == {peer};
        contacts := contacts + [Gossip.Contact(peer, known, reply)];
        known := known + Elems(reported);
        var newPeer;
        queue, checkSet, newPeer := EnqueueReported(queue, checkSet, attempted, reported);
        results := results + [newPeer];
        attempted := attempted + {peer};
        contacting := contacting - {peer};
        checkSet := checkSet - {peer};
      }
    }

    /** The enqueue loop of `peer_worker` over one contacted peer's report: every reported URL
        not already in the check-set, being contacted, or tried is appended to the queue and to
        the check-set; `newPeer` tells whether any was. */
    method EnqueueReported(queue0: seq<Url>, checkSet0: set<Url>, attempted: set<Url>, reported: seq<Url>)
      returns (queue: seq<Url>, checkSet: set<Url>, newPeer: bool)
      ensures Gossip.Admitted(queue, checkSet, newPeer) == Gossip.Admit(queue0, checkSet0, false, attempted, contacting, reported)
    {
      queue, checkSet, newPeer := queue0, checkSet0, false;
      var i := 0;
      while i < |reported|
        invariant 0 <= i <= |reported|
        invariant Gossip.Admit(queue, checkSet, newPeer, attempted, contacting, reported[i..]) ==
                  Gossip.Admit(queue0, checkSet0, false, attempted, contacting, reported)
      {
        var p := reported[i];
        assert reported[i..][1..] == reported[i + 1..];
        if p !in checkSet && p !in contacting && p !in attempted {
          newPeer := true;
          queue := queue + [p];
          checkSet := checkSet + {p};
        }
        i := i + 1;
      }
    }

    /** `get_peers`: returns the registry as read on entry, after running a gossip cycle over
        it when the refresh gate is open. */
    method GetPeers(net: Network, now: int) returns (peers: set<Url>, ghost order: seq<Url>)
      requires Valid()
      modifies this
      ensures Valid()
      ensures peers == old(registry)
      ensures GetPeersEffect(old(Snapshot()), Snapshot(), selfUrl, net, now, order)
    {
      peers := registry;
      order := [];
      if (now - Refresh.StalenessWindow > lastPeersUpdate || peerCacheInvalidated) && !fetchingPeers {
        fetchingPeers := true;
        lastPeersUpdate := now;
        var seed := Enumerate(peers);
        order := seed;
        var queue := seed;
        var checkSet := Elems(seed);
        var results: seq<bool> := [];
        var attempted := {selfUrl};
        queue, checkSet, attempted, results := PeerWorker(peers, queue, checkSet, attempted, results, net, now);
        peerCacheInvalidated := peerCacheInvalidated || true in results;
        registry := registry + peers;
        fetchingPeers := false;
      }
    }

    /** `PeerHandler.post`: a notify from `sender` reporting `reported`. A sender already being
        processed is acknowledged with no change; otherwise each reported URL is checked
        against its service-info `types` answer as `Notify.MergeAll` describes, and the
        invalidation flag is set to the merge's verdict. */
    method PostPeers(sender: Url, reported: seq<Url>, types: map<Url, string>, now: int) returns (outcome: NotifyOutcome)
      requires Valid()
      modifies this`registry, this`peerCacheInvalidated, this`lastErrored, this`notifying
      ensures Valid()
      ensures sender in old(notifying) ==>
        && outcome == Duplicate
        && registry == old(registry) && peerCacheInvalidated == old(peerCacheInvalidated)
        && lastErrored == old(lastErrored) && notifying == old(notifying)
      ensures sender !in old(notifying) ==>
        var m := Notify.MergeAll(Notify.Merge({selfUrl}, old(registry), old(peerCacheInvalidated), old(lastErrored)),
                                 reported, types, now);
        && outcome == Accepted
        && registry == m.registry && peerCacheInvalidated == m.invalidated
        && lastErrored == m.errored && notifying == old(notifying)
    {
      var newPci := peerCacheInvalidated;
      var attempted := {selfUrl};
      if sender in notifying {
        // Another request from the same node is in flight; assume it carries the same data.
        return Duplicate;
      }
      notifying := notifying + {sender};
      ghost var start := Notify.Merge(attempted, registry, newPci, lastErrored);
      var i := 0;
      while i < |reported|
        invariant 0 <= i <= |reported|
        invariant notifying == old(notifying) + {sender}
        invariant peerCacheInvalidated == old(peerCacheInvalidated)
        invariant Notify.MergeAll(Notify.Merge(attempted, registry, newPci, lastErrored), reported[i..], types, now) ==
                  Notify.MergeAll(start, reported, types, now)
      {
        var u := reported[i];
        assert reported[i..][1..] == reported[i + 1..];
        ghost var before := Notify.Merge(attempted, registry, newPci, lastErrored);
        if u in attempted {
        } else if IsDead(lastErrored, u, now) {
          // Avoid repetitively hitting dead nodes.
        } else {
          match Ask(types, u) {
            case Ok(t) =>
              if Notify.Contains(t, Notify.Tag) {
                newPci := newPci || u !in registry;
                registry := registry + {u};
              }
            case Fail =>
              lastErrored := lastErrored[u := now];
          }
          attempted := attempted + {u};
        }
        assert Notify.Merge(attempted, registry, newPci, lastErrored) == Notify.Visit(before, u, types, now);
        i := i + 1;
      }
      notifying := notifying - {sender};
      peerCacheInvalidated := newPci;
      outcome := Accepted;
    }

    /** `SearchHandler.post`: refreshes and reads the peers as `get_peers` does, sends the
        query to each of them once (in `order`), and aggregates the answers; `total` is the
        number of peers in the registry. */
    method PostSearch<T>(net: Network, answers: map<Url, Search.Response<T>>, now: int)
      returns (agg: Search.Aggregate<T>, ghost cycleOrder: seq<Url>, ghost order: seq<Url>)
      requires Valid()
      modifies this
      ensures Valid()
      ensures GetPeersEffect(old(Snapshot()), Snapshot(), selfUrl, net, now, cycleOrder)
      ensures NoDup(order) && Elems(order) == old(registry)
      ensures agg == Search.Aggregated(Responses(order, answers))
      ensures agg.total == |old(registry)|
    {
      var peers;
      peers, cycleOrder := GetPeers(net, now);
      var queue := Enumerate(peers);
      order := queue;
      var responses := Search.FanOut(queue, answers);
      assert responses == Responses(order, answers);
      agg := Search.Aggregated(responses);
      NoDupCard(queue);
    }
  }
}

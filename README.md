# CHORD federation service: gossip, notify and search, in Dafny

This project models the peer-federation core of the CHORD federation service
(`chord_federation/app.py`). Each node keeps a registry of peer base URLs. It
keeps that registry current by gossip, accepts notifies from other nodes and
fans search queries out to every known peer.

The Tornado coroutines are modelled as **one sequential worker**. Every network exchange is an
**oracle** given as a map:
- `net: map<Url, seq<Url>>` is what each peer answers to `GET …/api/federation/peers`. A URL
  outside its domain means the notify POST or the GET failed.
- `types: map<Url, string>` is the `type` field of each peer's service-info. A URL outside its
  domain means the fetch failed or the field was missing. Both are caught by the same
  `except Exception` in the source.
- `answers: map<Url, Response<T>>` is each peer's search answer. A URL outside its domain means
  the POST failed.

Time is an integer number of seconds. The model reads the clock once per call and passes it as
the parameter `now`. The source reads it again at every dequeue, every failure stamp and every
reported URL; "## Left out" says what this one reading leaves uncovered.

Modules, one per part of `app.py`:

- `Types` (`types.dfy`): URLs, the `Reply` of an oracle, and small facts about sequences and
  sets. `Enumerate` lists a set in some order, the way iterating a Python set does.
- `DeadPeers` (`dead_peers.dfy`): the `last_errored` cache and the 30-second dead-peer predicate.
- `Refresh` (`refresh.dfy`): the gate that decides whether `get_peers` runs a gossip cycle.
- `Gossip` (`gossip.dfy`): one gossip cycle as a pure state machine.
  - `Step` is one dequeue of `peer_worker`, and `Run` steps until the queue is empty.
  - `Run` terminates by the measure (untried URLs, queue length), ordered lexicographically.
  - Every cycle keeps an invariant, `Inv`, over a ghost log of the contacts made.
  - The whole-cycle lemmas are consequences of that invariant.
- `Notify` (`notify.dfy`): the merge that `PeerHandler.post` performs.
  - `Visit` handles one reported URL, and `MergeAll` folds it over the report.
  - The type-tag check is Python's substring test.
- `Search` (`search.dfy`): the fan-out of `search_worker`, and the aggregation of the answers
  into `results` / `responded` / `total`.
- `Federation` (`application.dfy`): the `Application` object as a class with the source's
  fields. Its methods are `PeerWorker` (with `HandlePeer` for one dequeue and `EnqueueReported`
  for the enqueue loop), `GetPeers`, and the two handlers `PostPeers` and `PostSearch`. Each
  method is proved equal to the pure definition that specifies it.

A few behaviours of the code are easy to misread; the model follows the code:

- **The registry never grows from gossip.** At app.py:289, `peers = peers.union(peer_peers)`
  rebinds a name local to the worker. So `get_peers` re-inserts (app.py:335-336) and returns
  (app.py:346) exactly the set it read at app.py:308. Newly discovered peers are enqueued
  (app.py:295) and contacted in the same cycle (app.py:255-273), but they never reach the
  registry or the returned set. Apart from those contacts they affect only the notify payload
  sent to later peers (app.py:266) and the invalidation flag. `Gossip.Covered` states that every
  live learned URL is tried, and `Gossip.Payloads` states the payload. `Federation.Application.GetPeers` states the unchanged
  registry and the flag.
- **`last_peers_update` is stamped before the worklist runs** (app.py:313), not after it. With
  one clock reading per call the two orders give the same value.
- **A missing `self` / `peers` field in a notify is not answered with 400.** The source catches
  only `IndexError` (app.py:160). A missing key raises `KeyError`, which that clause does not
  catch. So the model's notify handler takes an already-parsed `self` and `peers`, and has no
  400 path.
- **A missing `results` field in a search answer does not give 400 either** (app.py:214, same
  reason). The model's search answers always carry `results`.
- **A peer whose service-info has no `type` field is stamped dead.** The fetch succeeded, but
  the `KeyError` at app.py:138 is caught by `except Exception` (app.py:145-147). A peer whose
  `type` lacks the tag is skipped without a stamp.
- **The invalidation flag is sticky in the one-worker model.** `get_peers` only ever ORs into it
  (app.py:333), and in the model a notify writes back a value that includes the flag it started
  from. So once the flag is set, every later `get_peers` call that finds no fetch in progress
  runs a cycle. `GetPeersEffect` states the OR. In the source a notify can still clear the flag:
  it reads the flag at app.py:100 and writes `new_pci` back at :156. A cycle that sets the flag
  at :333 while the notify waits on a fetch (:134) is overwritten by that write-back.

## Model

| member | source | states |
|---|---|---|
| DeadPeers.DeadWindow | chord_federation/app.py:21 | a failure stamped at t makes the peer dead exactly while now < t + 30; at exactly t + 30 it is live again (the comparison is strict) |
| DeadPeers.NeverFailedNotDead | chord_federation/app.py:128-129 | a URL with no failure timestamp is never skipped as dead |
| DeadPeers.StampOthers | chord_federation/app.py:286 | stamping one URL in `last_errored` does not change whether any other URL is dead |
| DeadPeers.StampedIsDead | chord_federation/app.py:147 | a URL just stamped at `now` is dead at `now` |
| Refresh.FirstCallRefreshes | chord_federation/app.py:350-353 | from the initial state (last update at the epoch, not invalidated, not fetching), any clock reading more than one hour after the epoch opens the gate |
| Refresh.FreshStaysClosed | chord_federation/app.py:310-311 | within one hour of the last update (exactly one hour included) and without invalidation, no cycle runs, even with no fetch in progress |
| Refresh.FetchingClosesGate | chord_federation/app.py:310-311 | while a fetch is in progress no cycle starts, stale or invalidated |
| Refresh.InvalidatedOpensGate | chord_federation/app.py:310-311 | an invalidated cache opens the gate when no fetch is in progress, however recent the last update |
| Types.Enumerate | chord_federation/app.py:318-320 | the registry set becomes a queue that holds each of its URLs exactly once, so the check-set mirrors it |
| Gossip.AdmitMeaning | chord_federation/app.py:292-296 | the enqueue loop keeps the queue as its prefix. It appends exactly the reported URLs not in the check-set, not being contacted and not tried, each once, and adds the same URLs to the check-set. The flag it returns becomes true iff it appended any |
| Gossip.StepShrinks | chord_federation/app.py:230-304 | each dequeue decreases (untried URLs reachable from the queue or the network, queue length), ordered lexicographically. A contact shrinks the first, a skip shrinks the second |
| Gossip.Run | chord_federation/app.py:230-304 | the worker loop terminates, with an empty queue |
| Gossip.CycleInv | chord_federation/app.py:239-304 | at the end of a cycle seeded from the registry the invariant holds. The queue has no duplicates and the check-set equals the queued URLs. The tried set is the own URL plus the contacted peers, and every contact went to an untried, live peer. `last_errored`, the worker's `peers` and the connected flag are determined by the contacts. Every known URL was tried or dead. A URL found outside the seed raised a result flag |
| Gossip.ContactedOnce | chord_federation/app.py:243-248 | a cycle drains the queue and check-set. Every peer is contacted at most once and CHORD_URL never. `attempted_contact` ends as CHORD_URL plus the contacted peers. One result flag is recorded per contact (app.py:298-300, :323) |
| Gossip.DeadNotContacted | chord_federation/app.py:235-241 | a peer dead when the cycle starts is never contacted and never enters `attempted_contact` |
| Gossip.Covered | chord_federation/app.py:289-296 | the worker's `peers` ends as the registry plus everything the successful contacts reported. Each of those URLs was tried or was dead when the cycle began |
| Gossip.Failures | chord_federation/app.py:277-289 | every contact asked the network. A failed contact stamps `last_errored[peer] = now` and records no new peer. A successful one leaves its peer's entry alone, and entries of peers not contacted are unchanged. The node is connected iff it already was or some contact succeeded |
| Gossip.Payloads | chord_federation/app.py:266 | the peer list sent to the i-th contacted peer is the registry plus all that the earlier contacts reported |
| Gossip.DiscoveryFlagged | chord_federation/app.py:290-298 | learning of any URL outside the registry (other than CHORD_URL) makes `True in results`, which invalidates the cache (app.py:333) |
| Notify.Contains | chord_federation/app.py:138 | the substring test is true iff the tag occurs at some position of the type string |
| Notify.OwnTypeAccepted | chord_federation/app.py:72 | the type this node declares, `ca.distributedgenomics:chord_federation:<version>`, passes the tag check of app.py:138 for every version |
| Notify.VisitSettles | chord_federation/app.py:124-152 | handling one reported URL leaves it no longer pending (tried, or skipped as dead), so a later duplicate in the same call is skipped; every other URL stays as pending as it was |
| Notify.MergeRegistry | chord_federation/app.py:124-152 | the registry grows by exactly the reported URLs that were fetched (not tried already and not dead) and that declared a type containing the tag. The tried set grows by exactly the fetched URLs |
| Notify.MergeErrored | chord_federation/app.py:145-147 | `last_errored` is stamped with `now` at exactly the fetched URLs whose fetch failed; every other entry is unchanged |
| Notify.MergeInvalidated | chord_federation/app.py:139-141 | `new_pci` ends as its start value OR "some verified URL was absent from the registry", i.e. OR "the registry changed". It never goes from true to false |
| Notify.TypeGated | chord_federation/app.py:138-142 | a URL the merge inserts was reported, fetched, not dead, answered, and its type carries the tag |
| Search.FanOut | chord_federation/app.py:168-189 | one response per queued peer, in queue order: the peer's answer when it responded, `None` when the exchange failed |
| Search.GoodMembers | chord_federation/app.py:206 | the good responses are exactly the non-null ones. There are as many as non-null entries, at most the total, and none iff every response is null |
| Search.GoodAppend | chord_federation/app.py:206 | filtering distributes over concatenation, so order is kept |
| Search.FlattenAppend | chord_federation/app.py:210 | flattening distributes over concatenation |
| Search.FlattenLength | chord_federation/app.py:210 | the flattened result list is as long as the sum of the sub-list lengths |
| Search.FlattenMembers | chord_federation/app.py:210 | a value is in the flattened results iff it is in some good response's `results` |
| Search.AggregateCounts | chord_federation/app.py:206-211 | `responded` is the number of non-null responses, at most `total`. `total` is the number of responses. The results are as long as the sum of the good sub-list lengths |
| Search.AggregateAppend | chord_federation/app.py:206-211 | aggregating two batches of responses concatenates their results and adds their counters |
| Search.ThreePeers | chord_federation/app.py:206-212 | responses `[1,2]`, null, `[3]` aggregate to results `[1,2,3]`, responded 2, total 3 |
| Federation.Application.constructor | chord_federation/app.py:348-356 | a new application over a registry starts with the last update at the epoch. Nothing is invalidated, connected, fetching, failed, being contacted or notifying, and outside a cycle no peer is being contacted |
| Federation.Application.EnqueueReported | chord_federation/app.py:292-296 | the enqueue loop computes what `Gossip.Admit` specifies (see AdmitMeaning) |
| Federation.Application.HandlePeer | chord_federation/app.py:230-304 | one dequeue leaves the queue, check-set, tried set, worker `peers`, `last_errored`, connected flag and results as `Gossip.Step` specifies. `contacting` is empty again afterwards |
| Federation.Application.PeerWorker | chord_federation/app.py:227-304 | draining the queue leaves the worklist, `last_errored` and the connected flag exactly as `Gossip.Run` specifies |
| Federation.Application.GetPeers | chord_federation/app.py:306-346 | returns the registry as read on entry, and leaves the registry unchanged. When the refresh gate is closed nothing changes. When it is open, it sets `last_peers_update = now`, runs one full cycle over the registry, and takes `last_errored` and the connected flag from it. The flag becomes old OR `True in results`, and the fetch guard is released with nothing left being contacted |
| Federation.Application.PostPeers | chord_federation/app.py:94-158 | a sender already in `notifying` is acknowledged with no state change. Otherwise the registry, `last_errored` and the invalidation flag become what `Notify.MergeAll` computes from a tried set of `{CHORD_URL}` (the sender is not in it). `notifying` returns to its prior value |
| Federation.Application.PostSearch | chord_federation/app.py:191-212 | refreshes as `get_peers` does, then queries each registry peer once and aggregates the answers in query order. `total` equals the registry's size |

## Left out

- Concurrency is left out: the Tornado `Queue`, the pool of 10 workers, the `None` exit sentinels,
  and `task_done` / `join` (app.py:198-205, :219-223, :326-344). One sequential worker drains each
  queue.
- The "avoiding race" branch (app.py:250-253) cannot be reached with one worker, because
  `contacting` is empty at every dequeue (`HandlePeer` requires and ensures it). For the same
  reason, lost updates between concurrent handlers are not modelled. Examples are `new_pci` being
  read at app.py:100 and written back at :156, and the per-worker copies of `peers`.
- `notifying` is left arbitrary on entry to a notify. It stands in for other notify requests in
  flight, so the duplicate branch stays reachable.
- `fetchingPeers` is left arbitrary on entry to `GetPeers` and `PostSearch` for the same reason.
  A true value stands for a cycle that a concurrent caller is running; `Refresh.FetchingClosesGate`
  is about that caller. In the one-worker model nothing leaves the flag true: the constructor and
  `GetPeers` both leave it false.
- `AsyncHTTPClient.fetch`, `json.loads` and time-outs (TIMEOUT) become the oracles above. A GET
  that succeeds with a body lacking `peers` cannot be expressed. In the source it sets
  `connected_to_peer_network` before failing (app.py:277-278).
- The exact exception types are not modelled (`IndexError` vs `KeyError`, app.py:160, :214, :280).
  Neither are the 400 answers, which the source never reaches for a missing field.
- SQLite (`init_db`, `update_db`, cursors, commits, app.py:23-55) is not modelled. The registry is
  a `set` of URLs, and `INSERT OR IGNORE` is set union.
- The `ServiceInfoHandler` document, `PeerHandler.get`, `print` logging and `run()` (app.py:59-92,
  :370-377) are left out. Only the `type` string of app.py:72 is modelled, as `Notify.ServiceType`.
- `datetime` is not modelled. Its float timestamps, and the mix of local and UTC clocks
  (app.py:129, :236 vs :310), become one integer clock in seconds.
- Gossip.Step, Notify.Visit and Gossip.DeadNotContacted: time is one clock reading per call.
  The source re-reads `datetime.now()` at every dequeue (app.py:236), at every failure stamp
  (:147, :286) and for every reported URL of a notify (:129). So the model does not capture a
  peer whose failure ages past 30 s during the same cycle or notify. The source contacts such a
  peer when it is dequeued. In the model it stays dead for the whole call. For example: the queue
  is [A, P], P failed 20 s before the cycle, and A times out after 45 s. DeadNotContacted
  ("a peer dead when the cycle starts is never contacted") and Notify's `Fetched` and `Verified`
  ("not dead at the call's clock reading") hold only because of the one reading. Stamps, too,
  all carry that one reading rather than the moment of each failure.
- The search request body and the search path are passed through to the peers unchanged and are
  not modelled.
- `bento_federation_service/app.py` (route wiring) and `chord_federation_service/constants.py`
  (environment configuration) are not part of this model.

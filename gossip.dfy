/** One gossip cycle of `get_peers`, driven by a single sequential `peer_worker`: the queue
    is seeded from the registry, each dequeued peer is skipped (dead, or already tried) or
    contacted, and the peers it reports that are not yet queued, being contacted or tried
    are appended, until the queue is empty. */
module Gossip {
  import opened Types
  import opened DeadPeers

  /** One contact made during a cycle: the peer, the peer list sent to it in the notify
      payload, and what it answered. */
  datatype Contact = Contact(peer: Url, sent: set<Url>, reply: Reply<seq<Url>>)

  /** The state of a cycle between two dequeues: `peers_to_check`, `peers_to_check_set`,
      `attempted_contact`, the worker's own `peers`, the application's `last_errored` and
      `connected_to_peer_network`, the `results` flags, and the log of contacts made. */
  datatype Cycle = Cycle(
    queue: seq<Url>,
    checkSet: set<Url>,
    attempted: set<Url>,
    known: set<Url>,
    errored: map<Url, int>,
    connected: bool,
    results: seq<bool>,
    contacts: seq<Contact>)

  /** The cycle as `get_peers` starts it from the registry contents listed in `order`. */
  function Seed(order: seq<Url>, self: Url, errored: map<Url, int>, connected: bool): Cycle
  {
    Cycle(order, Elems(order), {self}, Elems(order), errored, connected, [], [])
  }

  /** The outcome of the enqueue loop over one peer's report. */
  datatype Admitted = Admitted(queue: seq<Url>, checkSet: set<Url>, found: bool)

  /** Reported URLs that are not queued, not being contacted and not tried. */
  ghost function Unseen(reported: seq<Url>, checkSet: set<Url>, contacting: set<Url>, attempted: set<Url>): set<Url>
  {
    set p | p in reported && p !in checkSet && p !in contacting && p !in attempted
  }

  /** The enqueue loop: each reported URL that is not in the check-set, not being contacted
      and not tried is appended to the queue and to the check-set, and sets `found`. */
  function Admit(queue: seq<Url>, checkSet: set<Url>, found: bool, attempted: set<Url>,
                 contacting: set<Url>, reported: seq<Url>): Admitted
    decreases |reported|
  {
    if reported == [] then Admitted(queue, checkSet, found)
    else
      var p := reported[0];
      if p !in checkSet && p !in contacting && p !in attempted then
        Admit(queue + [p], checkSet + {p}, true, attempted, contacting, reported[1..])
      else
        Admit(queue, checkSet, found, attempted, contacting, reported[1..])
  }

  /** The enqueue loop appends each unseen reported URL exactly once, keeps the queue's
      prefix, grows the check-set by the same URLs, and reports whether it found any. */
  lemma {:induction false} AdmitMeaning(queue: seq<Url>, checkSet: set<Url>, found: bool, attempted: set<Url>,
                                        contacting: set<Url>, reported: seq<Url>)
    ensures var r := Admit(queue, checkSet, found, attempted, contacting, reported);
      && |queue| <= |r.queue| && r.queue[..|queue|] == queue
      && Elems(r.queue[|queue|..]) == Unseen(reported, checkSet, contacting, attempted)
      && NoDup(r.queue[|queue|..])
      && r.checkSet == checkSet + Unseen(reported, checkSet, contacting, attempted)
      && r.found == (found || Unseen(reported, checkSet, contacting, attempted) != {})
    decreases |reported|
  {
    if reported != [] {
      var p := reported[0];
      var rest := reported[1..];
      assert forall v :: v in reported <==> v == p || v in rest;
      if p !in checkSet && p !in contacting && p !in attempted {
        AdmitMeaning(queue + [p], checkSet + {p}, true, attempted, contacting, rest);
        var r := Admit(queue + [p], checkSet + {p}, true, attempted, contacting, rest);
        assert Unseen(reported, checkSet, contacting, attempted) == {p} + Unseen(rest, checkSet + {p}, contacting, attempted);
        assert r.queue[..|queue| + 1] == queue + [p];
        assert r.queue[..|queue|] == (queue + [p])[..|queue|];
        assert r.queue[|queue|..] == [p] + r.queue[|queue| + 1..];
        assert p !in r.queue[|queue| + 1..] by {
          assert p !in Elems(r.queue[|queue| + 1..]);
        }
        NoDupCons(p, r.queue[|queue| + 1..]);
      } else {
        AdmitMeaning(queue, checkSet, found, attempted, contacting, rest);
        assert Unseen(reported, checkSet, contacting, attempted) == Unseen(rest, checkSet, contacting, attempted);
      }
    }
  }

  lemma NoDupCons(x: Url, s: seq<Url>)
    requires NoDup(s) && x !in s
    ensures NoDup([x] + s)
  {
    var t := [x] + s;
    forall i, j | 0 <= i < j < |t| ensures t[i] != t[j] {
      if i == 0 {
        assert t[j] == s[j - 1];
        assert s[j - 1] in s;
      } else {
        assert t[i] == s[i - 1] && t[j] == s[j - 1];
      }
    }
    assert NoDup(t);
  }

  lemma NoDupConcat(a: seq<Url>, b: seq<Url>)
    requires NoDup(a) && NoDup(b) && Elems(a) * Elems(b) == {}
    ensures NoDup(a + b)
  {
    var t := a + b;
    assert forall x :: x in Elems(a) ==> x !in Elems(b) by {
      forall x | x in Elems(a) ensures x !in Elems(b) {
        assert x !in Elems(a) * Elems(b);
      }
    }
    forall i, j | 0 <= i < j < |t| ensures t[i] != t[j] {
      if j < |a| {
        assert t[i] == a[i] && t[j] == a[j];
      } else if i >= |a| {
        assert t[i] == b[i - |a|] && t[j] == b[j - |a|];
      } else {
        assert t[i] == a[i] && t[j] == b[j - |a|];
        assert t[i] in Elems(a) && t[j] in Elems(b);
      }
    }
  }

  lemma ElemsConcat(a: seq<Url>, b: seq<Url>)
    ensures Elems(a + b) == Elems(a) + Elems(b)
  {
    forall x ensures x in Elems(a + b) <==> x in Elems(a) + Elems(b) {
      assert x in a + b <==> x in a || x in b;
    }
  }

  /** What the peer list a contacted peer contributes: its report, or nothing on failure. */
  function Reported(reply: Reply<seq<Url>>): seq<Url>
  {
    if reply.Ok? then reply.value else []
  }

  /** One iteration of `peer_worker`: dequeue a peer and skip it if dead or already tried;
      otherwise notify it (sending the worker's current `peers`), read its peer list, stamp
      it dead on failure, enqueue what it reports, and record it as tried. While it is being
      contacted, `contacting` is exactly {peer}. */
  function Step(c: Cycle, net: Network, now: int): Cycle
    requires c.queue != []
  {
    var peer := c.queue[0];
    var rest := c.queue[1..];
    if IsDead(c.errored, peer, now) || peer in c.attempted then
      c.(queue := rest, checkSet := c.checkSet - {peer})
    else
      var reply := Ask(net, peer);
      var reported := Reported(reply);
      var a := Admit(rest, c.checkSet, false, c.attempted, {peer}, reported);
      Cycle(a.queue, a.checkSet - {peer}, c.attempted + {peer}, c.known + Elems(reported),
            if reply.Fail? then c.errored[peer := now] else c.errored,
            c.connected || reply.Ok?,
            c.results + [a.found],
            c.contacts + [Contact(peer, c.known, reply)])
  }

  /** Every URL some peer of the network reports. */
  ghost function AllReported(net: Network): set<Url>
  {
    set k, p | k in net && p in net[k] :: p
  }

  /** The URLs that may still be contacted: queued or reported somewhere, and not tried. */
  ghost function Unattempted(c: Cycle, net: Network): set<Url>
  {
    (Elems(c.queue) + AllReported(net)) - c.attempted
  }

  /** The termination measure: a contact shrinks the untried URLs, a skip shrinks the queue. */
  lemma StepShrinks(c: Cycle, net: Network, now: int)
    requires c.queue != []
    ensures var n := Step(c, net, now);
      |Unattempted(n, net)| < |Unattempted(c, net)| ||
      (|Unattempted(n, net)| == |Unattempted(c, net)| && |n.queue| < |c.queue|)
  {
    var peer := c.queue[0];
    var rest := c.queue[1..];
    var n := Step(c, net, now);
    assert c.queue == [peer] + rest;
    ElemsConcat([peer], rest);
    if IsDead(c.errored, peer, now) || peer in c.attempted {
      CardMono(Unattempted(n, net), Unattempted(c, net));
    } else {
      var reply := Ask(net, peer);
      var reported := Reported(reply);
      AdmitMeaning(rest, c.checkSet, false, c.attempted, {peer}, reported);
      var a := Admit(rest, c.checkSet, false, c.attempted, {peer}, reported);
      assert a.queue == rest + a.queue[|rest|..];
      ElemsConcat(rest, a.queue[|rest|..]);
      assert Elems(reported) <= AllReported(net) by {
        forall p | p in reported ensures p in AllReported(net) {
          assert peer in net && p in net[peer];
        }
      }
      assert peer in Unattempted(c, net) && peer !in Unattempted(n, net);
      CardMono(Unattempted(n, net), Unattempted(c, net));
    }
  }

  /** The cycle run until the queue is empty. */
  function Run(c: Cycle, net: Network, now: int): (r: Cycle)
    ensures r.queue == []
    decreases |Unattempted(c, net)|, |c.queue|
  {
    if c.queue == [] then c
    else
      StepShrinks(c, net, now);
      Run(Step(c, net, now), net, now)
  }

  // ------------------------------------------------------------------
  // The contact log and the state it determines.

  /** The peers contacted, in order. */
  function Peers(cs: seq<Contact>): (ps: seq<Url>)
    ensures |ps| == |cs|
  {
    seq(|cs|, i requires 0 <= i < |cs| => cs[i].peer)
  }

  /** `last_errored` after the contacts in `cs`: each failed contact stamps its peer. */
  function Stamp(errored: map<Url, int>, cs: seq<Contact>, now: int): map<Url, int>
    decreases |cs|
  {
    if cs == [] then errored
    else
      var e := Stamp(errored, cs[..|cs| - 1], now);
      var k := cs[|cs| - 1];
      if k.reply.Fail? then e[k.peer := now] else e
  }

  /** Every URL reported by the successful contacts in `cs`. */
  function Learned(cs: seq<Contact>): set<Url>
    decreases |cs|
  {
    if cs == [] then {}
    else Learned(cs[..|cs| - 1]) + Elems(Reported(cs[|cs| - 1].reply))
  }

  predicate AnyOk(cs: seq<Contact>)
  {
    exists i :: 0 <= i < |cs| && cs[i].reply.Ok?
  }

  /** URLs the cycle has come to know of that were not in the seed. */
  ghost function Discovered(c: Cycle, c0: Cycle): set<Url>
  {
    (c.known + c.checkSet + c.attempted) - (c0.known + c0.checkSet + c0.attempted)
  }

  /** The queue holds no duplicate and the check-set mirrors it. */
  ghost predicate QueueOk(c: Cycle)
  {
    NoDup(c.queue) && c.checkSet == Elems(c.queue)
  }

  /** Contact number i was made to an untried peer that was not dead when the cycle began,
      asked the network, and carried the seed plus everything learned before it. */
  ghost predicate ContactOk(cs: seq<Contact>, i: int, c0: Cycle, net: Network, now: int)
    requires 0 <= i < |cs|
  {
    var k := cs[i];
    && k.peer !in c0.attempted
    && !IsDead(c0.errored, k.peer, now)
    && k.reply == Ask(net, k.peer)
    && k.sent == c0.known + Learned(cs[..i])
  }

  /** The tried set is the seed's plus the contacted peers, each contacted once; one result
      flag per contact, and a failed contact never finds anything. */
  ghost predicate LogOk(c: Cycle, c0: Cycle, net: Network, now: int)
  {
    && c.attempted == c0.attempted + Elems(Peers(c.contacts))
    && NoDup(Peers(c.contacts))
    && |c.results| == |c.contacts|
    && (forall i :: 0 <= i < |c.contacts| ==> ContactOk(c.contacts, i, c0, net, now))
    && (forall i :: 0 <= i < |c.results| && c.results[i] ==> c.contacts[i].reply.Ok?)
  }

  /** `last_errored`, the worker's `peers` and the connected flag are determined by the log. */
  ghost predicate StateOk(c: Cycle, c0: Cycle, now: int)
  {
    && c.errored == Stamp(c0.errored, c.contacts, now)
    && c.known == c0.known + Learned(c.contacts)
    && c.connected == (c0.connected || AnyOk(c.contacts))
  }

  /** Every known URL is tried, queued, or was dead when the cycle began; finding a URL
      outside the seed raises a result flag. */
  ghost predicate CoverOk(c: Cycle, c0: Cycle, now: int)
  {
    && (forall u :: u in c.known ==> u in c.attempted || u in c.checkSet || IsDead(c0.errored, u, now))
    && (Discovered(c, c0) != {} ==> true in c.results)
  }

  ghost predicate Inv(c: Cycle, c0: Cycle, net: Network, now: int)
  {
    QueueOk(c) && LogOk(c, c0, net, now) && StateOk(c, c0, now) && CoverOk(c, c0, now)
  }

  // ------------------------------------------------------------------
  // Facts about the log.

  lemma PeersSnoc(cs: seq<Contact>, k: Contact)
    ensures Peers(cs + [k]) == Peers(cs) + [k.peer]
    ensures Elems(Peers(cs + [k])) == Elems(Peers(cs)) + {k.peer}
  {
    assert Peers(cs + [k]) == Peers(cs) + [k.peer];
    ElemsConcat(Peers(cs), [k.peer]);
  }

  /** A URL never contacted keeps its `last_errored` entry. */
  lemma {:induction false} StampUntouched(errored: map<Url, int>, cs: seq<Contact>, now: int, u: Url)
    requires u !in Elems(Peers(cs))
    ensures Get(Stamp(errored, cs, now), u) == Get(errored, u)
    decreases |cs|
  {
    if cs != [] {
      var init := cs[..|cs| - 1];
      assert cs == init + [cs[|cs| - 1]];
      PeersSnoc(init, cs[|cs| - 1]);
      StampUntouched(errored, init, now, u);
    }
  }

  /** When each peer is contacted once, a failed contact leaves its peer stamped at `now`
      and a successful one leaves its peer's entry as it was. */
  lemma {:induction false} StampContacted(errored: map<Url, int>, cs: seq<Contact>, now: int, i: int)
    requires NoDup(Peers(cs)) && 0 <= i < |cs|
    ensures cs[i].reply.Fail? ==> Get(Stamp(errored, cs, now), cs[i].peer) == Some(now)
    ensures cs[i].reply.Ok? ==> Get(Stamp(errored, cs, now), cs[i].peer) == Get(errored, cs[i].peer)
    decreases |cs|
  {
    var init := cs[..|cs| - 1];
    var last := cs[|cs| - 1];
    assert cs == init + [last];
    PeersSnoc(init, last);
    if i == |cs| - 1 {
      if last.reply.Ok? {
        assert last.peer !in Elems(Peers(init)) by {
          forall j | 0 <= j < |init| ensures Peers(init)[j] != last.peer {
            assert Peers(cs)[j] == Peers(init)[j];
          }
        }
        StampUntouched(errored, init, now, last.peer);
      }
    } else {
      assert Peers(init) == Peers(cs)[..|cs| - 1];
      assert NoDup(Peers(init));
      assert cs[i] == init[i];
      assert Peers(cs)[i] != Peers(cs)[|cs| - 1];
      StampContacted(errored, init, now, i);
    }
  }

  // ------------------------------------------------------------------
  // The invariant holds at the seed and is kept by every step.

  lemma SeedInv(order: seq<Url>, self: Url, errored: map<Url, int>, connected: bool, net: Network, now: int)
    requires NoDup(order)
    ensures Inv(Seed(order, self, errored, connected), Seed(order, self, errored, connected), net, now)
  {
    var c := Seed(order, self, errored, connected);
    assert Peers(c.contacts) == [];
    assert Elems<Url>([]) == {};
    assert Discovered(c, c) == {};
  }

  /** Dequeuing from a duplicate-free queue leaves a duplicate-free rest without the peer. */
  lemma Dequeue(c: Cycle)
    requires QueueOk(c) && c.queue != []
    ensures c.queue[0] !in c.queue[1..] && NoDup(c.queue[1..])
    ensures c.checkSet == {c.queue[0]} + Elems(c.queue[1..])
    ensures c.queue[0] !in Elems(c.queue[1..])
  {
    var peer := c.queue[0];
    var rest := c.queue[1..];
    assert c.queue == [peer] + rest;
    ElemsConcat([peer], rest);
    forall j | 0 <= j < |rest| ensures rest[j] != peer {
      assert c.queue[j + 1] == rest[j];
    }
    forall i, j | 0 <= i < j < |rest| ensures rest[i] != rest[j] {
      assert c.queue[i + 1] == rest[i] && c.queue[j + 1] == rest[j];
    }
  }

  lemma StepInvSkip(c: Cycle, c0: Cycle, net: Network, now: int)
    requires Inv(c, c0, net, now) && c.queue != []
    requires IsDead(c.errored, c.queue[0], now) || c.queue[0] in c.attempted
    ensures Inv(Step(c, net, now), c0, net, now)
  {
    var peer := c.queue[0];
    var n := Step(c, net, now);
    Dequeue(c);
    if peer !in c.attempted {
      StampUntouched(c0.errored, c.contacts, now, peer);
      assert IsDead(c0.errored, peer, now);
    }
    assert Discovered(n, c0) <= Discovered(c, c0);
  }

  /** A contact step keeps the queue duplicate-free and mirrored by the check-set. */
  lemma ContactQueue(c: Cycle, c0: Cycle, net: Network, now: int)
    requires Inv(c, c0, net, now) && c.queue != []
    requires !IsDead(c.errored, c.queue[0], now) && c.queue[0] !in c.attempted
    ensures QueueOk(Step(c, net, now))
    ensures Step(c, net, now).checkSet ==
            Elems(c.queue[1..]) + Unseen(Reported(Ask(net, c.queue[0])), c.checkSet, {c.queue[0]}, c.attempted)
  {
    var peer := c.queue[0];
    var rest := c.queue[1..];
    var reported := Reported(Ask(net, peer));
    var a := Admit(rest, c.checkSet, false, c.attempted, {peer}, reported);
    Dequeue(c);
    AdmitMeaning(rest, c.checkSet, false, c.attempted, {peer}, reported);
    var added := a.queue[|rest|..];
    assert a.queue == rest + added;
    ElemsConcat(rest, added);
    NoDupConcat(rest, added);
  }

  /** A contact step appends one well-formed contact to the log. */
  lemma ContactLog(c: Cycle, c0: Cycle, net: Network, now: int)
    requires Inv(c, c0, net, now) && c.queue != []
    requires !IsDead(c.errored, c.queue[0], now) && c.queue[0] !in c.attempted
    ensures LogOk(Step(c, net, now), c0, net, now)
  {
    var peer := c.queue[0];
    var reply := Ask(net, peer);
    var reported := Reported(reply);
    var n := Step(c, net, now);
    var k := Contact(peer, c.known, reply);
    assert n.contacts == c.contacts + [k];
    PeersSnoc(c.contacts, k);
    assert peer !in Elems(Peers(c.contacts));
    NoDupConcat(Peers(c.contacts), [peer]);
    StampUntouched(c0.errored, c.contacts, now, peer);
    assert n.contacts[..|c.contacts|] == c.contacts;
    forall i | 0 <= i < |n.contacts| ensures ContactOk(n.contacts, i, c0, net, now) {
      if i < |c.contacts| {
        assert n.contacts[i] == c.contacts[i];
        assert n.contacts[..i] == c.contacts[..i];
        assert ContactOk(c.contacts, i, c0, net, now);
      }
    }
    AdmitMeaning(c.queue[1..], c.checkSet, false, c.attempted, {peer}, reported);
    assert reply.Fail? ==> Unseen(reported, c.checkSet, {peer}, c.attempted) == {};
  }

  /** A contact step keeps `last_errored`, `peers` and the connected flag in step with the log. */
  lemma ContactState(c: Cycle, c0: Cycle, net: Network, now: int)
    requires Inv(c, c0, net, now) && c.queue != []
    requires !IsDead(c.errored, c.queue[0], now) && c.queue[0] !in c.attempted
    ensures StateOk(Step(c, net, now), c0, now)
  {
    var peer := c.queue[0];
    var reply := Ask(net, peer);
    var n := Step(c, net, now);
    var k := Contact(peer, c.known, reply);
    assert n.contacts == c.contacts + [k];
    assert n.contacts[..|n.contacts| - 1] == c.contacts;
    assert n.errored == Stamp(c0.errored, n.contacts, now);
    assert n.known == c0.known + Learned(n.contacts);
    if AnyOk(c.contacts) {
      var i :| 0 <= i < |c.contacts| && c.contacts[i].reply.Ok?;
      assert n.contacts[i] == c.contacts[i];
    }
    if AnyOk(n.contacts) {
      var i :| 0 <= i < |n.contacts| && n.contacts[i].reply.Ok?;
      if i < |c.contacts| {
        assert n.contacts[i] == c.contacts[i];
      }
    }
    if reply.Ok? {
      assert n.contacts[|c.contacts|].reply.Ok?;
    }
  }

  /** A contact step keeps every known URL covered and flags discoveries. */
  lemma ContactCover(c: Cycle, c0: Cycle, net: Network, now: int)
    requires Inv(c, c0, net, now) && c.queue != []
    requires !IsDead(c.errored, c.queue[0], now) && c.queue[0] !in c.attempted
    ensures CoverOk(Step(c, net, now), c0, now)
  {
    var peer := c.queue[0];
    var rest := c.queue[1..];
    var reply := Ask(net, peer);
    var reported := Reported(reply);
    var a := Admit(rest, c.checkSet, false, c.attempted, {peer}, reported);
    var n := Step(c, net, now);
    var U := Unseen(reported, c.checkSet, {peer}, c.attempted);
    Dequeue(c);
    ContactQueue(c, c0, net, now);
    AdmitMeaning(rest, c.checkSet, false, c.attempted, {peer}, reported);
    assert n.checkSet == Elems(rest) + U;
    forall u | u in n.known ensures u in n.attempted || u in n.checkSet || IsDead(c0.errored, u, now) {
      if u in c.known {
        assert u in c.attempted || u in c.checkSet || IsDead(c0.errored, u, now);
      } else {
        assert u in reported;
      }
    }
    if Discovered(n, c0) != {} {
      var u :| u in Discovered(n, c0);
      if u !in Discovered(c, c0) {
        assert u in reported;
        assert u in U;
        assert a.found;
      }
      if a.found {
        assert n.results[|c.results|] == true;
      } else {
        var j :| 0 <= j < |c.results| && c.results[j] == true;
        assert n.results[j] == true;
      }
    }
  }

  lemma StepInvContact(c: Cycle, c0: Cycle, net: Network, now: int)
    requires Inv(c, c0, net, now) && c.queue != []
    requires !IsDead(c.errored, c.queue[0], now) && c.queue[0] !in c.attempted
    ensures Inv(Step(c, net, now), c0, net, now)
  {
    ContactQueue(c, c0, net, now);
    ContactLog(c, c0, net, now);
    ContactState(c, c0, net, now);
    ContactCover(c, c0, net, now);
  }

  lemma StepInv(c: Cycle, c0: Cycle, net: Network, now: int)
    requires Inv(c, c0, net, now) && c.queue != []
    ensures Inv(Step(c, net, now), c0, net, now)
  {
    if IsDead(c.errored, c.queue[0], now) || c.queue[0] in c.attempted {
      StepInvSkip(c, c0, net, now);
    } else {
      StepInvContact(c, c0, net, now);
    }
  }

  /** The invariant holds when the queue has drained. */
  lemma {:induction false} RunInv(c: Cycle, c0: Cycle, net: Network, now: int)
    requires Inv(c, c0, net, now)
    ensures Inv(Run(c, net, now), c0, net, now)
    decreases |Unattempted(c, net)|, |c.queue|
  {
    if c.queue != [] {
      StepInv(c, c0, net, now);
      StepShrinks(c, net, now);
      RunInv(Step(c, net, now), c0, net, now);
    }
  }

  // ------------------------------------------------------------------
  // What a whole cycle, from the registry seed to the empty queue, guarantees.

  /** The invariant at the end of a cycle started from the registry contents `order`. */
  lemma CycleInv(order: seq<Url>, self: Url, errored: map<Url, int>, connected: bool, net: Network, now: int)
    requires NoDup(order)
    ensures Inv(Run(Seed(order, self, errored, connected), net, now), Seed(order, self, errored, connected), net, now)
  {
    SeedInv(order, self, errored, connected, net, now);
    RunInv(Seed(order, self, errored, connected), Seed(order, self, errored, connected), net, now);
  }

  /** The queue drains; every peer is contacted at most once and the node's own URL never;
      what ends up tried is the own URL plus the contacted peers; one result flag per contact. */
  lemma ContactedOnce(order: seq<Url>, self: Url, errored: map<Url, int>, connected: bool, net: Network, now: int)
    requires NoDup(order)
    ensures var r := Run(Seed(order, self, errored, connected), net, now);
      && r.queue == [] && r.checkSet == {}
      && NoDup(Peers(r.contacts))
      && self !in Elems(Peers(r.contacts))
      && r.attempted == {self} + Elems(Peers(r.contacts))
      && |r.results| == |r.contacts|
  {
    var c0 := Seed(order, self, errored, connected);
    var r := Run(c0, net, now);
    CycleInv(order, self, errored, connected, net, now);
    forall i | 0 <= i < |r.contacts| ensures Peers(r.contacts)[i] != self {
      assert ContactOk(r.contacts, i, c0, net, now);
    }
  }

  /** A peer that was dead when the cycle began is never contacted and never enters
      `attempted_contact`. */
  lemma DeadNotContacted(order: seq<Url>, self: Url, errored: map<Url, int>, connected: bool, net: Network, now: int)
    requires NoDup(order)
    ensures var r := Run(Seed(order, self, errored, connected), net, now);
      && (forall i :: 0 <= i < |r.contacts| ==> !IsDead(errored, r.contacts[i].peer, now))
      && (forall u :: IsDead(errored, u, now) && u != self ==> u !in r.attempted)
  {
    var c0 := Seed(order, self, errored, connected);
    var r := Run(c0, net, now);
    CycleInv(order, self, errored, connected, net, now);
    forall i | 0 <= i < |r.contacts| ensures !IsDead(errored, r.contacts[i].peer, now) {
      assert ContactOk(r.contacts, i, c0, net, now);
    }
    forall u | IsDead(errored, u, now) && u != self ensures u !in r.attempted {
      forall i | 0 <= i < |r.contacts| ensures Peers(r.contacts)[i] != u {
        assert ContactOk(r.contacts, i, c0, net, now);
      }
    }
  }

  /** The worker's `peers` ends as the registry plus everything the successful contacts
      reported, and each of those URLs was tried or was dead when the cycle began. */
  lemma Covered(order: seq<Url>, self: Url, errored: map<Url, int>, connected: bool, net: Network, now: int)
    requires NoDup(order)
    ensures var r := Run(Seed(order, self, errored, connected), net, now);
      && r.known == Elems(order) + Learned(r.contacts)
      && (forall u :: u in r.known ==> u in r.attempted || IsDead(errored, u, now))
  {
    CycleInv(order, self, errored, connected, net, now);
  }

  /** A failed contact stamps its peer with `now` and finds nothing; a successful one leaves
      its peer's `last_errored` entry alone, and nobody else's entry changes. Every contact
      asked the network, and the node counts as connected iff it was already or some
      contact succeeded. */
  lemma Failures(order: seq<Url>, self: Url, errored: map<Url, int>, connected: bool, net: Network, now: int)
    requires NoDup(order)
    ensures var r := Run(Seed(order, self, errored, connected), net, now);
      && |r.results| == |r.contacts|
      && (forall i :: 0 <= i < |r.contacts| ==> r.contacts[i].reply == Ask(net, r.contacts[i].peer))
      && (forall i :: 0 <= i < |r.contacts| && r.contacts[i].reply.Fail? ==>
            Get(r.errored, r.contacts[i].peer) == Some(now) && !r.results[i])
      && (forall i :: 0 <= i < |r.contacts| && r.contacts[i].reply.Ok? ==>
            Get(r.errored, r.contacts[i].peer) == Get(errored, r.contacts[i].peer))
      && (forall u :: u !in Elems(Peers(r.contacts)) ==> Get(r.errored, u) == Get(errored, u))
      && r.connected == (connected || AnyOk(r.contacts))
  {
    var c0 := Seed(order, self, errored, connected);
    var r := Run(c0, net, now);
    CycleInv(order, self, errored, connected, net, now);
    forall i | 0 <= i < |r.contacts|
      ensures r.contacts[i].reply == Ask(net, r.contacts[i].peer)
      ensures r.contacts[i].reply.Fail? ==> Get(r.errored, r.contacts[i].peer) == Some(now)
      ensures r.contacts[i].reply.Ok? ==> Get(r.errored, r.contacts[i].peer) == Get(errored, r.contacts[i].peer)
    {
      assert ContactOk(r.contacts, i, c0, net, now);
      StampContacted(errored, r.contacts, now, i);
    }
    forall u | u !in Elems(Peers(r.contacts)) ensures Get(r.errored, u) == Get(errored, u) {
      StampUntouched(errored, r.contacts, now, u);
    }
  }

  /** The notify payload sent to the i-th contacted peer is the registry plus everything
      learned from the contacts before it. */
  lemma Payloads(order: seq<Url>, self: Url, errored: map<Url, int>, connected: bool, net: Network, now: int)
    requires NoDup(order)
    ensures var r := Run(Seed(order, self, errored, connected), net, now);
      forall i :: 0 <= i < |r.contacts| ==> r.contacts[i].sent == Elems(order) + Learned(r.contacts[..i])
  {
    var c0 := Seed(order, self, errored, connected);
    var r := Run(c0, net, now);
    CycleInv(order, self, errored, connected, net, now);
    forall i | 0 <= i < |r.contacts| ensures r.contacts[i].sent == Elems(order) + Learned(r.contacts[..i]) {
      assert ContactOk(r.contacts, i, c0, net, now);
    }
  }

  /** Learning of a URL outside the registry (other than the node's own) raises a result flag,
      which is what invalidates the peer cache. */
  lemma DiscoveryFlagged(order: seq<Url>, self: Url, errored: map<Url, int>, connected: bool, net: Network, now: int, u: Url)
    requires NoDup(order)
    requires u in Run(Seed(order, self, errored, connected), net, now).known
    requires u !in Elems(order) && u != self
    ensures true in Run(Seed(order, self, errored, connected), net, now).results
  {
    var c0 := Seed(order, self, errored, connected);
    var r := Run(c0, net, now);
    CycleInv(order, self, errored, connected, net, now);
    assert u in Discovered(r, c0);
  }
}

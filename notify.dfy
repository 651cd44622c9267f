/** The inbound half of gossip, `PeerHandler.post`: the peers a notifying node reports are
    checked one by one and the protocol-compatible ones enter the registry. */
module Notify {
  import opened Types
  import opened DeadPeers

  /** The type tag a peer's service-info `type` must contain to be accepted. */
  const Tag: string := "ca.distributedgenomics:chord_federation"

  /** The `type` this node itself declares in its service-info document, for a version string. */
  function ServiceType(version: string): string
  {
    Tag + ":" + version
  }

  /** `sub` occurs in `s` starting at position i. */
  predicate IsAt(s: string, sub: string, i: int)
  {
    0 <= i && i + |sub| <= |s| && s[i..i + |sub|] == sub
  }

  /** Python's substring test `sub in s`. */
  function Contains(s: string, sub: string): (b: bool)
    ensures b <==> exists i :: IsAt(s, sub, i)
    decreases |s|
  {
    if |sub| > |s| then
      assert forall i :: !IsAt(s, sub, i);
      false
    else if s[..|sub|] == sub then
      assert IsAt(s, sub, 0);
      true
    else
      assert forall i :: IsAt(s[1..], sub, i) <==> IsAt(s, sub, i + 1);
      assert forall i :: IsAt(s, sub, i) ==> i > 0;
      assert forall i :: IsAt(s, sub, i) ==> IsAt(s[1..], sub, i - 1);
      Contains(s[1..], sub)
  }

  /** The node's own declared type passes the check other nodes apply, whatever the version. */
  lemma OwnTypeAccepted(version: string)
    ensures Contains(ServiceType(version), Tag)
  {
    assert IsAt(ServiceType(version), Tag, 0);
  }

  /** The notify handler's working state: the URLs already tried in this call, the registry,
      the pending invalidation flag `new_pci`, and `last_errored`. */
  datatype Merge = Merge(attempted: set<Url>, registry: set<Url>, invalidated: bool, errored: map<Url, int>)

  /** `u` is neither tried already in this call nor dead. */
  predicate Pending(m: Merge, u: Url, now: int)
  {
    u !in m.attempted && !IsDead(m.errored, u, now)
  }

  /** One iteration of the loop over the reported peers: skip a URL already tried or dead;
      otherwise fetch its service-info, insert it when its type carries the tag (raising
      `new_pci` only if it was absent), stamp it dead when the fetch fails, and mark it tried. */
  function Visit(m: Merge, u: Url, types: map<Url, string>, now: int): Merge
  {
    if u in m.attempted then m
    else if IsDead(m.errored, u, now) then m
    else
      var m1 := match Ask(types, u)
        case Fail => m.(errored := m.errored[u := now])
        case Ok(t) =>
          if Contains(t, Tag) then m.(invalidated := m.invalidated || u !in m.registry, registry := m.registry + {u})
          else m;
      m1.(attempted := m1.attempted + {u})
  }

  /** The whole loop over the reported peers, in order. */
  function MergeAll(m: Merge, us: seq<Url>, types: map<Url, string>, now: int): Merge
    decreases |us|
  {
    if us == [] then m else MergeAll(Visit(m, us[0], types, now), us[1..], types, now)
  }

  /** Reported URLs that are fetched in this call. */
  ghost function Fetched(m: Merge, us: seq<Url>, now: int): set<Url>
  {
    set u | u in us && Pending(m, u, now)
  }

  /** Reported URLs that are fetched and declare a compatible type. */
  ghost function Verified(m: Merge, us: seq<Url>, types: map<Url, string>, now: int): set<Url>
  {
    set u | u in us && Pending(m, u, now) && u in types && Contains(types[u], Tag)
  }

  /** Reported URLs that are fetched and fail. */
  ghost function Unreachable(m: Merge, us: seq<Url>, types: map<Url, string>, now: int): set<Url>
  {
    set u | u in us && Pending(m, u, now) && u !in types
  }

  /** A visit settles its own URL and leaves every other URL as pending as it was. */
  lemma VisitSettles(m: Merge, u: Url, types: map<Url, string>, now: int, v: Url)
    ensures !Pending(Visit(m, u, types, now), u, now)
    ensures v != u ==> Pending(Visit(m, u, types, now), v, now) == Pending(m, v, now)
  {
    if Pending(m, u, now) && u !in types && v != u {
      StampOthers(m.errored, u, now, v, now);
    }
  }

  /** The registry grows by exactly the verified URLs, and the tried set by the fetched ones. */
  lemma {:induction false} MergeRegistry(m: Merge, us: seq<Url>, types: map<Url, string>, now: int)
    ensures MergeAll(m, us, types, now).registry == m.registry + Verified(m, us, types, now)
    ensures MergeAll(m, us, types, now).attempted == m.attempted + Fetched(m, us, now)
    decreases |us|
  {
    if us != [] {
      var u := us[0];
      var m' := Visit(m, u, types, now);
      MergeRegistry(m', us[1..], types, now);
      forall v ensures v in Verified(m, us, types, now) <==>
                       (v == u && v in Verified(m, [u], types, now)) || v in Verified(m', us[1..], types, now)
                ensures v in Fetched(m, us, now) <==>
                       (v == u && Pending(m, u, now)) || v in Fetched(m', us[1..], now)
      {
        VisitSettles(m, u, types, now, v);
        assert v in us <==> v == u || v in us[1..];
      }
    }
  }

  /** `last_errored` is stamped with `now` at exactly the unreachable URLs; every other entry
      is left as it was. */
  lemma {:induction false} MergeErrored(m: Merge, us: seq<Url>, types: map<Url, string>, now: int, v: Url)
    ensures Get(MergeAll(m, us, types, now).errored, v) ==
            if v in Unreachable(m, us, types, now) then Some(now) else Get(m.errored, v)
    decreases |us|
  {
    if us != [] {
      var u := us[0];
      var m' := Visit(m, u, types, now);
      MergeErrored(m', us[1..], types, now, v);
      VisitSettles(m, u, types, now, v);
      assert v in us <==> v == u || v in us[1..];
      if v == u {
        assert v !in Unreachable(m', us[1..], types, now);
      } else {
        assert v in Unreachable(m, us, types, now) <==> v in Unreachable(m', us[1..], types, now);
      }
    }
  }

  /** `new_pci` becomes true exactly when some verified URL was absent from the registry, that
      is when the registry actually grew, and it is never cleared. */
  lemma {:induction false} MergeInvalidated(m: Merge, us: seq<Url>, types: map<Url, string>, now: int)
    ensures MergeAll(m, us, types, now).invalidated == (m.invalidated || !(Verified(m, us, types, now) <= m.registry))
    ensures MergeAll(m, us, types, now).invalidated == (m.invalidated || MergeAll(m, us, types, now).registry != m.registry)
    decreases |us|
  {
    MergeRegistry(m, us, types, now);
    if us != [] {
      var u := us[0];
      var m' := Visit(m, u, types, now);
      MergeInvalidated(m', us[1..], types, now);
      MergeRegistry(m', us[1..], types, now);
      forall v ensures v in Verified(m, us, types, now) <==>
                       (v == u && v in Verified(m, [u], types, now)) || v in Verified(m', us[1..], types, now)
      {
        VisitSettles(m, u, types, now, v);
        assert v in us <==> v == u || v in us[1..];
      }
      assert u !in Verified(m', us[1..], types, now) by {
        VisitSettles(m, u, types, now, u);
      }
    }
  }

  /** Type-tag gating: a URL enters the registry only if it was reported, was fetched in this
      call, and declared a type carrying the tag. */
  lemma TypeGated(m: Merge, us: seq<Url>, types: map<Url, string>, now: int, u: Url)
    requires u in MergeAll(m, us, types, now).registry && u !in m.registry
    ensures u in us && u !in m.attempted && !IsDead(m.errored, u, now)
    ensures u in types && Contains(types[u], Tag)
  {
    MergeRegistry(m, us, types, now);
  }
}

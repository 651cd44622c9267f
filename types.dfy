/** Shared vocabulary of the federation model: peer addresses, oracle replies and
    small facts about sequences, sets and maps. */
module Types {

  /** A normalised peer base URL (trailing slash included); equality is string equality. */
  type Url = string

  /** The outcome of one network exchange with a peer. */
  datatype Reply<T> = Fail | Ok(value: T)

  datatype Option<T> = None | Some(value: T)

  /** What a peer answers to `GET {peer}api/federation/peers`: the peer list it reports.
      A URL outside the domain stands for a failed exchange (transport error, non-2xx
      status, or a body that does not parse). */
  type Network = map<Url, seq<Url>>

  /** Asks an oracle about one URL. */
  function Ask<T>(oracle: map<Url, T>, u: Url): (r: Reply<T>)
    ensures r.Ok? <==> u in oracle
    ensures r.Ok? ==> r.value == oracle[u]
  {
    if u in oracle then Ok(oracle[u]) else Fail
  }

  /** The entry of a map at a key, if any. */
  function Get<K, V>(m: map<K, V>, k: K): (r: Option<V>)
    ensures r.Some? <==> k in m
    ensures r.Some? ==> r.value == m[k]
  {
    if k in m then Some(m[k]) else None
  }

  function Elems<T>(s: seq<T>): set<T>
  {
    set x | x in s
  }

  predicate NoDup<T(==)>(s: seq<T>)
  {
    forall i, j :: 0 <= i < j < |s| ==> s[i] != s[j]
  }

  /** A subset is no larger than its superset, and strictly smaller when proper. */
  lemma CardMono<T>(a: set<T>, b: set<T>)
    requires a <= b
    ensures |a| <= |b|
    ensures a != b ==> |a| < |b|
  {
    var d := b - a;
    assert b == a + d;
    assert a * d == {};
    if a != b {
      var x :| x in d;
      assert {x} <= d;
    }
  }

  /** Lists the members of a set one by one, in some order (Python's iteration over a
      `set`, whose order is not known to the program). */
  method Enumerate(s: set<Url>) returns (order: seq<Url>)
    ensures NoDup(order)
    ensures Elems(order) == s
  {
    order := [];
    var rest := s;
    while rest != {}
      invariant NoDup(order)
      invariant Elems(order) + rest == s
      invariant Elems(order) * rest == {}
      decreases |rest|
    {
      var x :| x in rest;
      order := order + [x];
      rest := rest - {x};
    }
  }

  /** A duplicate-free sequence has as many distinct members as entries. */
  lemma {:induction false} NoDupCard<T>(s: seq<T>)
    requires NoDup(s)
    ensures |Elems(s)| == |s|
  {
    if s != [] {
      var t := s[1..];
      assert NoDup(t) by {
        forall i, j | 0 <= i < j < |t| ensures t[i] != t[j] {
          assert t[i] == s[i + 1] && t[j] == s[j + 1];
        }
      }
      NoDupCard(t);
      assert s == [s[0]] + t;
      assert Elems(s) == {s[0]} + Elems(t);
      assert s[0] !in Elems(t) by {
        forall j | 0 <= j < |t| ensures t[j] != s[0] {
          assert t[j] == s[j + 1];
        }
      }
    }
  }
}

/** Federated search: the fan-out of one query to every peer (`search_worker`) and the
    aggregation of the answers (`SearchHandler.post`). */
module Search {
  import opened Types

  /** A peer's parsed answer: its `results` list. */
  datatype Response<T> = Response(results: seq<T>)

  /** The body written back: `results` plus the `responded` / `total` peer counters. */
  datatype Aggregate<T> = Aggregate(results: seq<T>, responded: nat, total: nat)

  /** `search_worker`, run by one worker: every dequeued peer is asked once and its answer,
      or `None` on failure, is appended to `responses`. */
  method FanOut<T>(queue: seq<Url>, answers: map<Url, Response<T>>) returns (responses: seq<Option<Response<T>>>)
    ensures |responses| == |queue|
    ensures forall i :: 0 <= i < |queue| ==>
              (responses[i].Some? <==> queue[i] in answers) &&
              (responses[i].Some? ==> responses[i].value == answers[queue[i]])
  {
    responses := [];
    var k := 0;
    while k < |queue|
      invariant 0 <= k <= |queue|
      invariant |responses| == k
      invariant forall i :: 0 <= i < k ==> responses[i] == Get(answers, queue[i])
    {
      var peer := queue[k];
      if peer in answers {
        responses := responses + [Some(answers[peer])];
      } else {
        responses := responses + [None];
      }
      k := k + 1;
    }
  }

  /** The non-null responses, in order (app.py:206). */
  function Good<T>(responses: seq<Option<Response<T>>>): seq<Response<T>>
  {
    if responses == [] then []
    else (if responses[0].Some? then [responses[0].value] else []) + Good(responses[1..])
  }

  /** The `results` lists of the good responses, concatenated in order (app.py:210). */
  function Flatten<T>(good: seq<Response<T>>): seq<T>
  {
    if good == [] then [] else good[0].results + Flatten(good[1..])
  }

  /** The aggregate written for a list of per-peer responses. */
  function Aggregated<T>(responses: seq<Option<Response<T>>>): Aggregate<T>
  {
    var good := Good(responses);
    Aggregate(Flatten(good), |good|, |responses|)
  }

  /** The number of peers that answered. */
  function CountSome<T>(responses: seq<Option<Response<T>>>): nat
  {
    if responses == [] then 0 else (if responses[0].Some? then 1 else 0) + CountSome(responses[1..])
  }

  /** Total number of results across a list of answers. */
  function SumLengths<T>(good: seq<Response<T>>): nat
  {
    if good == [] then 0 else |good[0].results| + SumLengths(good[1..])
  }

  /** Filtering keeps exactly the answers, in order, and drops exactly the failures. */
  lemma {:induction false} GoodMembers<T>(responses: seq<Option<Response<T>>>)
    ensures |Good(responses)| == CountSome(responses) <= |responses|
    ensures forall r :: r in Good(responses) <==> Some(r) in responses
    ensures Good(responses) == [] <==> forall i :: 0 <= i < |responses| ==> responses[i].None?
  {
    if responses != [] {
      GoodMembers(responses[1..]);
      assert responses == [responses[0]] + responses[1..];
    }
  }

  /** Filtering a concatenation filters each part. */
  lemma {:induction false} GoodAppend<T>(a: seq<Option<Response<T>>>, b: seq<Option<Response<T>>>)
    ensures Good(a + b) == Good(a) + Good(b)
  {
    if a != [] {
      assert (a + b)[1..] == a[1..] + b;
      GoodAppend(a[1..], b);
    } else {
      assert a + b == b;
    }
  }

  /** Flattening a concatenation flattens each part. */
  lemma {:induction false} FlattenAppend<T>(a: seq<Response<T>>, b: seq<Response<T>>)
    ensures Flatten(a + b) == Flatten(a) + Flatten(b)
  {
    if a != [] {
      assert (a + b)[1..] == a[1..] + b;
      FlattenAppend(a[1..], b);
    } else {
      assert a + b == b;
    }
  }

  /** The combined list is as long as all answers' lists together. */
  lemma {:induction false} FlattenLength<T>(good: seq<Response<T>>)
    ensures |Flatten(good)| == SumLengths(good)
  {
    if good != [] {
      FlattenLength(good[1..]);
    }
  }

  /** Every combined result comes from some answer, and every answer's results are in it. */
  lemma {:induction false} FlattenMembers<T>(good: seq<Response<T>>, x: T)
    ensures x in Flatten(good) <==> exists i :: 0 <= i < |good| && x in good[i].results
  {
    if good != [] {
      FlattenMembers(good[1..], x);
      if x in good[0].results {
        assert 0 < |good| && x in good[0].results;
      }
      if exists i :: 0 <= i < |good| && x in good[i].results {
        var i :| 0 <= i < |good| && x in good[i].results;
        if i > 0 {
          assert x in good[1..][i - 1].results;
        }
      }
      if exists i :: 0 <= i < |good[1..]| && x in good[1..][i].results {
        var i :| 0 <= i < |good[1..]| && x in good[1..][i].results;
        assert x in good[i + 1].results;
      }
    }
  }

  /** The counters: `responded` is the number of peers that answered, `total` the number
      of peers asked, so `responded <= total`; the results are as many as the answers'
      lists hold together. */
  lemma AggregateCounts<T>(responses: seq<Option<Response<T>>>)
    ensures Aggregated(responses).responded == CountSome(responses)
    ensures Aggregated(responses).responded <= Aggregated(responses).total == |responses|
    ensures |Aggregated(responses).results| == SumLengths(Good(responses))
  {
    GoodMembers(responses);
    FlattenLength(Good(responses));
  }

  /** Aggregation is order-preserving and compositional: the answers of a first group of
      peers come before those of a second, each list kept in its own order, and the
      counters add up. */
  lemma AggregateAppend<T>(a: seq<Option<Response<T>>>, b: seq<Option<Response<T>>>)
    ensures Aggregated(a + b).results == Aggregated(a).results + Aggregated(b).results
    ensures Aggregated(a + b).responded == Aggregated(a).responded + Aggregated(b).responded
    ensures Aggregated(a + b).total == Aggregated(a).total + Aggregated(b).total
  {
    GoodAppend(a, b);
    FlattenAppend(Good(a), Good(b));
  }

  /** Three peers: A answers [1, 2], B times out, C answers [3]. */
  lemma ThreePeers()
    ensures Aggregated([Some(Response([1, 2])), None, Some(Response([3]))]) == Aggregate([1, 2, 3], 2, 3)
  {
    var rs := [Some(Response([1, 2])), None, Some(Response([3]))];
    assert rs[1..] == [None, Some(Response([3]))];
    assert rs[1..][1..] == [Some(Response([3]))];
    assert rs[1..][1..][1..] == [];
    assert Good(rs) == [Response([1, 2]), Response([3])];
    assert Good(rs)[1..] == [Response([3])];
    assert Good(rs)[1..][1..] == [];
  }
}

/** The in-memory sliding window: a pruned log per key that must decide as the full
    history of accepted hits would. */
module RateLimit {
  import opened Prelude

  type Key = string
  type Time = int
  type Hits = map<Key, seq<Time>>

  /** The hits after a cutoff, in order. */
  function Active(hits: seq<Time>, cutoff: Time): seq<Time> {
    if hits == [] then []
    else Active(hits[..|hits| - 1], cutoff) + if hits[|hits| - 1] > cutoff then [hits[|hits| - 1]] else []
  }

  function HitsOf(log: Hits, key: Key): seq<Time> { if key in log then log[key] else [] }

  datatype Call = Call(key: Key, limit: int, window: int, now: Time) {
    function Cutoff(): Time { now - window }
  }

  predicate Allowed(log: Hits, call: Call) { |Active(HitsOf(log, call.key), call.Cutoff())| < call.limit }

  function Apply(log: Hits, call: Call): Hits {
    var active := Active(HitsOf(log, call.key), call.Cutoff());
    log[call.key := if Allowed(log, call) then active + [call.now] else active]
  }

  class RateLimiter {
    var inMemHits: Hits

    constructor ()
      ensures inMemHits == map[]
    {
      inMemHits := map[];
    }

    method CheckRateLimit(call: Call) returns (allowed: bool)
      modifies this
      ensures allowed == Allowed(old(inMemHits), call) && inMemHits == Apply(old(inMemHits), call)
    {
      var hits := if call.key in inMemHits then inMemHits[call.key] else [];
      var cutoff := call.now - call.window;
      var activeHits := [];
      for i := 0 to |hits|
        invariant activeHits == Active(hits[..i], cutoff)
      {
        assert hits[..i + 1][..i] == hits[..i];
        if hits[i] > cutoff {
          activeHits := activeHits + [hits[i]];
        }
      }
      assert hits[..|hits|] == hits;
      if |activeHits| >= call.limit {
        inMemHits := inMemHits[call.key := activeHits];
        return false;
      }
      activeHits := activeHits + [call.now];
      inMemHits := inMemHits[call.key := activeHits];
      return true;
    }
  }

  // ---- The full history ----

  function After(calls: seq<Call>): Hits {
    if calls == [] then map[] else Apply(After(calls[..|calls| - 1]), calls[|calls| - 1])
  }

  /** Every hit ever accepted for the key. */
  function Accepted(calls: seq<Call>, key: Key): seq<Time> {
    if calls == [] then []
    else
      var init, call := calls[..|calls| - 1], calls[|calls| - 1];
      Accepted(init, key) + if call.key == key && Allowed(After(init), call) then [call.now] else []
  }

  /** The hits up to a cutoff, in order. */
  function Expired(hits: seq<Time>, cutoff: Time): seq<Time> {
    if hits == [] then []
    else Expired(hits[..|hits| - 1], cutoff) + if hits[|hits| - 1] > cutoff then [] else [hits[|hits| - 1]]
  }

  /** Every hit ever pruned from the key's log. */
  function Pruned(calls: seq<Call>, key: Key): seq<Time> {
    if calls == [] then []
    else
      var init, call := calls[..|calls| - 1], calls[|calls| - 1];
      Pruned(init, key) + if call.key == key then Expired(HitsOf(After(init), key), call.Cutoff()) else []
  }

  lemma {:induction false} ActiveConcat(a: seq<Time>, b: seq<Time>, cutoff: Time)
    ensures Active(a + b, cutoff) == Active(a, cutoff) + Active(b, cutoff)
    decreases |b|
  {
    if b == [] {
      assert a + b == a;
    } else {
      assert (a + b)[..|a + b| - 1] == a + b[..|b| - 1];
      ActiveConcat(a, b[..|b| - 1], cutoff);
    }
  }

  lemma ActiveAdd(a: seq<Time>, x: Time, cutoff: Time)
    ensures |Active(a + [x], cutoff)| == |Active(a, cutoff)| + if x > cutoff then 1 else 0
  {
    assert (a + [x])[..|a|] == a;
  }

  /** Pruning at one cutoff parts the hits after any other. */
  lemma {:induction false} PruningParts(hits: seq<Time>, cutoff: Time, c: Time)
    ensures |Active(hits, c)| == |Active(Active(hits, cutoff), c)| + |Active(Expired(hits, cutoff), c)|
  {
    if hits != [] {
      var init, x := hits[..|hits| - 1], hits[|hits| - 1];
      PruningParts(init, cutoff, c);
      if x > cutoff {
        ActiveAdd(Active(init, cutoff), x, c);
        assert Expired(init, cutoff) + [] == Expired(init, cutoff);
      } else {
        ActiveAdd(Expired(init, cutoff), x, c);
        assert Active(init, cutoff) + [] == Active(init, cutoff);
      }
    }
  }

  /** Conservation, for all calls whatsoever: an accepted hit is in the log or was pruned. */
  lemma {:induction false} AcceptedIsLoggedOrPruned(calls: seq<Call>, key: Key, c: Time)
    ensures |Active(Accepted(calls, key), c)| == |Active(HitsOf(After(calls), key), c)| + |Active(Pruned(calls, key), c)|
    decreases |calls|
  {
    if calls != [] {
      var init, call := calls[..|calls| - 1], calls[|calls| - 1];
      AcceptedIsLoggedOrPruned(init, key, c);
      if call.key == key {
        var hits := HitsOf(After(init), key);
        var added := if Allowed(After(init), call) then [call.now] else [];
        assert Active(hits, call.Cutoff()) + [] == Active(hits, call.Cutoff());
        PruningParts(hits, call.Cutoff(), c);
        ActiveConcat(Pruned(init, key), Expired(hits, call.Cutoff()), c);
        ActiveConcat(Active(hits, call.Cutoff()), added, c);
        ActiveConcat(Accepted(init, key), added, c);
      } else {
        assert Accepted(calls, key) == Accepted(init, key) && Pruned(calls, key) == Pruned(init, key);
      }
    }
  }

  predicate AllUpTo(hits: seq<Time>, c: Time) { forall i :: 0 <= i < |hits| ==> hits[i] <= c }

  /** So the limiter counts as the full history does exactly when nothing it has
      pruned lies in the window of the call, and otherwise it counts less. */
  lemma CountsLikeFullHistory(calls: seq<Call>, call: Call)
    ensures var counted := |Active(HitsOf(After(calls), call.key), call.Cutoff())|;
            var full := |Active(Accepted(calls, call.key), call.Cutoff())|;
            counted <= full && (counted == full <==> AllUpTo(Pruned(calls, call.key), call.Cutoff()))
  {
    AcceptedIsLoggedOrPruned(calls, call.key, call.Cutoff());
    ActiveNone(Pruned(calls, call.key), call.Cutoff());
  }

  lemma {:induction false} ActiveNone(hits: seq<Time>, cutoff: Time)
    ensures |Active(hits, cutoff)| == 0 <==> AllUpTo(hits, cutoff)
  {
    if hits != [] {
      ActiveNone(hits[..|hits| - 1], cutoff);
    }
  }

  /** The cutoffs of the key's calls never fall: as with one window and a clock that does not go back. */
  predicate Steady(calls: seq<Call>, key: Key) {
    forall i, j :: 0 <= i < j < |calls| && calls[i].key == key == calls[j].key ==> calls[i].Cutoff() <= calls[j].Cutoff()
  }

  lemma {:induction false} ExpiredBound(hits: seq<Time>, cutoff: Time)
    ensures AllUpTo(Expired(hits, cutoff), cutoff)
  {
    if hits != [] {
      ExpiredBound(hits[..|hits| - 1], cutoff);
    }
  }

  lemma {:induction false} PrunedBound(calls: seq<Call>, key: Key, c: Time)
    requires forall i :: 0 <= i < |calls| && calls[i].key == key ==> calls[i].Cutoff() <= c
    ensures AllUpTo(Pruned(calls, key), c)
    decreases |calls|
  {
    if calls != [] {
      var init, call := calls[..|calls| - 1], calls[|calls| - 1];
      PrunedBound(init, key, c);
      ExpiredBound(HitsOf(After(init), key), call.Cutoff());
    }
  }

  /** Refinement. Under steady cutoffs every call is decided as the full history decides. */
  lemma DecidesLikeFullHistory(calls: seq<Call>, k: nat)
    requires k < |calls| && Steady(calls, calls[k].key)
    ensures Allowed(After(calls[..k]), calls[k])
            <==> |Active(Accepted(calls[..k], calls[k].key), calls[k].Cutoff())| < calls[k].limit
  {
    PrunedBound(calls[..k], calls[k].key, calls[k].Cutoff());
    CountsLikeFullHistory(calls[..k], calls[k]);
  }

  lemma OneMore(calls: seq<Call>, call: Call, key: Key)
    ensures After(calls + [call]) == Apply(After(calls), call)
    ensures Accepted(calls + [call], key)
            == Accepted(calls, key) + if call.key == key && Allowed(After(calls), call) then [call.now] else []
  {
    assert (calls + [call])[..|calls|] == calls;
  }

  lemma ApplyOne(log: Hits, call: Call, hits: seq<Time>)
    requires HitsOf(log, call.key) == hits && |hits| <= 1
    ensures var active := if hits != [] && hits[0] > call.Cutoff() then hits else [];
            && Active(hits, call.Cutoff()) == active
            && HitsOf(Apply(log, call), call.key) == if |active| < call.limit then active + [call.now] else active
  {
    assert hits != [] ==> hits == [hits[0]] && hits[..0] == [];
  }

  /** A shorter window in between makes the limiter forget: with one hit in the long
      window already, it admits a second although one is the limit. */
  lemma ShorterWindowForgets(key: Key)
    ensures var calls := [Call(key, 1, 100, 0)] + [Call(key, 0, 5, 10)];
            var call := Call(key, 1, 100, 11);
            Allowed(After(calls), call) && |Active(Accepted(calls, key), call.Cutoff())| == call.limit
  {
    hide Active, Apply;
    var a, b, c := Call(key, 1, 100, 0), Call(key, 0, 5, 10), Call(key, 1, 100, 11);
    OneMore([], a, key);
    OneMore([a], b, key);
    assert [] + [a] == [a];
    ApplyOne(map[], a, []);
    ApplyOne(After([a]), b, [0]);
    ApplyOne(After([a] + [b]), c, []);
    ApplyOne(map[key := [0]], c, [0]);
    assert Accepted([a], key) == [0] && Accepted([a] + [b], key) == [0];
  }

  // ---- No window ever holds more than the limit ----

  /** The hits in `(from, to]`. */
  function Within(hits: seq<Time>, from: Time, to: Time): nat {
    if hits == [] then 0
    else Within(hits[..|hits| - 1], from, to) + if from < hits[|hits| - 1] <= to then 1 else 0
  }

  /** One limit and one window for the key, and a clock that does not go back. */
  predicate Regular(calls: seq<Call>, key: Key, limit: int, window: int) {
    && (forall i :: 0 <= i < |calls| && calls[i].key == key ==> calls[i].limit == limit && calls[i].window == window)
    && (forall i, j :: 0 <= i < j < |calls| && calls[i].key == key == calls[j].key ==> calls[i].now <= calls[j].now)
  }

  lemma {:induction false} WithinBound(hits: seq<Time>, from: Time, to: Time, cutoff: Time)
    requires cutoff <= from
    ensures Within(hits, from, to) <= |Active(hits, cutoff)|
  {
    if hits != [] {
      WithinBound(hits[..|hits| - 1], from, to, cutoff);
    }
  }

  lemma WithinAdd(hits: seq<Time>, x: Time, from: Time, to: Time)
    ensures Within(hits + [x], from, to) == Within(hits, from, to) + if from < x <= to then 1 else 0
  {
    assert (hits + [x])[..|hits|] == hits;
  }

  lemma AcceptedLast(calls: seq<Call>, key: Key)
    requires calls != []
    ensures var init, call := calls[..|calls| - 1], calls[|calls| - 1];
            Accepted(calls, key) == if call.key == key && Allowed(After(init), call) then Accepted(init, key) + [call.now] else Accepted(init, key)
  {
    hide Allowed, After;
  }

  /** Every half-open window, wherever it ends, holds at most `limit` accepted hits. */
  lemma {:induction false} NoWindowOverLimit(calls: seq<Call>, key: Key, limit: int, window: int, t: Time)
    requires Regular(calls, key, limit, window)
    ensures Within(Accepted(calls, key), t - window, t) <= Max(limit, 0)
    decreases |calls|
  {
    hide Within, Active, Accepted, After, Allowed;
    if calls == [] {
      NoHits(key, t - window, t);
    } else {
      var k := |calls| - 1;
      var init, call := calls[..k], calls[k];
      NoWindowOverLimit(init, key, limit, window, t);
      AcceptedLast(calls, key);
      if call.key == key && Allowed(After(init), call) {
        var before := Accepted(init, key);
        WithinAdd(before, call.now, t - window, t);
        if call.now <= t {
          DecidesLikeFullHistory(calls, k);
          WithinBound(before, t - window, t, call.Cutoff());
        }
      }
    }
  }

  lemma NoHits(key: Key, from: Time, to: Time)
    ensures Within(Accepted([], key), from, to) == 0
  {
  }

  lemma {:induction false} WithinIsActive(hits: seq<Time>, from: Time, to: Time)
    requires AllUpTo(hits, to)
    ensures Within(hits, from, to) == |Active(hits, from)|
  {
    if hits != [] {
      WithinIsActive(hits[..|hits| - 1], from, to);
    }
  }

  lemma {:induction false} AcceptedByNow(calls: seq<Call>, key: Key, t: Time)
    requires forall i :: 0 <= i < |calls| && calls[i].key == key ==> calls[i].now <= t
    ensures AllUpTo(Accepted(calls, key), t)
    decreases |calls|
  {
    if calls != [] {
      AcceptedByNow(calls[..|calls| - 1], key, t);
    }
  }

  /** The decision, in the terms of the window alone: with one window and a clock that does not go back, a call is let
      through if and only if fewer than `limit` hits were accepted after the
      moment one window ago. */
  lemma DecidesByWindow(calls: seq<Call>, k: nat, limit: int, window: int)
    requires k < |calls| && Regular(calls, calls[k].key, limit, window)
    ensures Allowed(After(calls[..k]), calls[k])
            <==> Within(Accepted(calls[..k], calls[k].key), calls[k].now - window, calls[k].now) < limit
  {
    hide Active, Within, Accepted, Allowed, After;
    DecidesLikeFullHistory(calls, k);
    AcceptedByNow(calls[..k], calls[k].key, calls[k].now);
    WithinIsActive(Accepted(calls[..k], calls[k].key), calls[k].now - window, calls[k].now);
  }
}

/**
 * The live-update rate limiter of `on_test_case` (judge/bridge/judgecallback.py): per submission,
 * a counter and the time of its last reset; at most `UpdateRateLimit` test-case events are
 * published in the `UpdateRateTime` seconds after a reset, and the rest are dropped.
 */
module RateLimit {

  const UpdateRateLimit: int := 5
  const UpdateRateTime: real := 0.5

  /** `update_counter`: submission id to (updates, last reset). */
  type Counter = map<int, (int, real)>

  /** One test-case packet for submission `id` at time `now`: the new counter, and whether to publish. */
  function Throttle(counter: Counter, id: int, now: real): (r: (Counter, bool))
    ensures r.0.Keys == counter.Keys + {id}
    ensures forall j :: j in counter && j != id ==> r.0[j] == counter[j]
    ensures id !in counter || now - counter[id].1 > UpdateRateTime ==> r.0[id] == (1, now) && r.1
    ensures id in counter && now - counter[id].1 <= UpdateRateTime ==>
              r.0[id] == (counter[id].0 + 1, counter[id].1) && (r.1 <==> counter[id].0 + 1 <= UpdateRateLimit)
  {
    var (kept, post) :=
      if id in counter then
        var (cnt, reset) := counter[id];
        if now - reset > UpdateRateTime then (counter - {id}, true)
        else (counter[id := (cnt + 1, reset)], cnt + 1 <= UpdateRateLimit)
      else (counter, true);
    if id !in kept then (kept[id := (1, now)], post) else (kept, post)
  }

  /** Packets for one submission at the given times, in order: the final counter and which were published. */
  function Replay(counter: Counter, id: int, times: seq<real>): (r: (Counter, seq<bool>))
    ensures |r.1| == |times|
    decreases |times|
  {
    if times == [] then (counter, [])
    else
      var (next, post) := Throttle(counter, id, times[0]);
      var (last, posts) := Replay(next, id, times[1..]);
      (last, [post] + posts)
  }

  /** The number of published packets. */
  function Published(posts: seq<bool>): nat {
    if posts == [] then 0 else (if posts[0] then 1 else 0) + Published(posts[1..])
  }

  /**
   * Inside the window of a reset at `t0`, after `n` counted updates, the i-th further packet is
   * published exactly when it is among the first `UpdateRateLimit` since the reset.
   */
  lemma {:induction false} WithinWindow(counter: Counter, id: int, times: seq<real>, n: int, t0: real)
    requires id in counter && counter[id] == (n, t0)
    requires forall i :: 0 <= i < |times| ==> times[i] - t0 <= UpdateRateTime
    ensures var (last, posts) := Replay(counter, id, times);
            id in last && last[id] == (n + |times|, t0) &&
            forall i :: 0 <= i < |times| ==> (posts[i] <==> n + i + 1 <= UpdateRateLimit)
  {
    if times != [] {
      var (next, post) := Throttle(counter, id, times[0]);
      WithinWindow(next, id, times[1..], n + 1, t0);
      var (last, posts) := Replay(next, id, times[1..]);
      assert Replay(counter, id, times).1 == [post] + posts;
      forall i | 1 <= i < |times| ensures (Replay(counter, id, times).1[i] <==> n + i + 1 <= UpdateRateLimit) {
        assert times[1..][i - 1] == times[i];
      }
    }
  }

  /**
   * A burst for a submission with no counter, every packet within the window opened by the
   * first: exactly the first five are published.
   */
  lemma Burst(counter: Counter, id: int, times: seq<real>)
    requires id !in counter && times != []
    requires forall i :: 0 <= i < |times| ==> times[i] - times[0] <= UpdateRateTime
    ensures forall i :: 0 <= i < |times| ==> (Replay(counter, id, times).1[i] <==> i < UpdateRateLimit)
  {
    var (next, post) := Throttle(counter, id, times[0]);
    WithinWindow(next, id, times[1..], 1, times[0]);
    var posts := Replay(next, id, times[1..]).1;
    assert Replay(counter, id, times).1 == [post] + posts;
    forall i | 1 <= i < |times| ensures (Replay(counter, id, times).1[i] <==> i < UpdateRateLimit) {
      assert times[1..][i - 1] == times[i];
    }
  }

  /** A flag sequence that is true exactly on its first k positions has min(k, length) published. */
  lemma {:induction false} PublishedPrefix(posts: seq<bool>, k: nat)
    requires forall i :: 0 <= i < |posts| ==> (posts[i] <==> i < k)
    ensures Published(posts) == if |posts| < k then |posts| else k
  {
    if posts != [] {
      var rest := posts[1..];
      if k > 0 {
        PublishedPrefix(rest, k - 1);
      } else {
        PublishedPrefix(rest, 0);
      }
    }
  }

  /**
   * Seven packets within half a second publish five and drop two; an eighth arriving more than
   * half a second after the first resets the counter and is published.
   */
  lemma SevenThenOne(counter: Counter, id: int, times: seq<real>)
    requires id !in counter && |times| == 8
    requires forall i :: 0 <= i < 7 ==> times[i] - times[0] <= UpdateRateTime
    requires times[7] - times[0] > UpdateRateTime
    ensures Published(Replay(counter, id, times[..7]).1) == 5
    ensures Replay(counter, id, times).1[7]
  {
    var first := times[..7];
    Burst(counter, id, first);
    PublishedPrefix(Replay(counter, id, first).1, 5);
    var (next, post) := Throttle(counter, id, times[0]);
    WithinWindow(next, id, times[1..7], 1, times[0]);
    ReplaySplit(next, id, times[1..7], [times[7]]);
    assert times[1..] == times[1..7] + [times[7]];
  }

  /** Replaying two runs one after the other is replaying their concatenation. */
  lemma {:induction false} ReplaySplit(counter: Counter, id: int, xs: seq<real>, ys: seq<real>)
    ensures Replay(counter, id, xs + ys) ==
            (Replay(Replay(counter, id, xs).0, id, ys).0, Replay(counter, id, xs).1 + Replay(Replay(counter, id, xs).0, id, ys).1)
    decreases |xs|
  {
    if xs != [] {
      var (next, post) := Throttle(counter, id, xs[0]);
      ReplaySplit(next, id, xs[1..], ys);
      assert (xs + ys)[1..] == xs[1..] + ys && (xs + ys)[0] == xs[0];
      var a := Replay(next, id, xs[1..]);
      var b := Replay(a.0, id, ys);
      assert Replay(counter, id, xs) == (a.0, [post] + a.1);
      assert Replay(counter, id, xs + ys) == (b.0, [post] + (a.1 + b.1));
      assert [post] + (a.1 + b.1) == ([post] + a.1) + b.1;
    } else {
      assert xs + ys == ys;
      assert Replay(counter, id, xs) == (counter, []);
      assert [] + Replay(counter, id, ys).1 == Replay(counter, id, ys).1;
    }
  }
}

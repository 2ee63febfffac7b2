/** The event ring buffer (src/domain/event.rs) and the stream that polls it
    (src/api/rest.rs). */
module EventRing {

  /** `items` is the deque, oldest first. */
  datatype Ring<T> = Ring(items: seq<T>, capacity: nat) {
    /** A full ring drops its oldest item; `pop_front` on an empty deque does nothing. */
    function Push(x: T): Ring<T> {
      if |items| >= capacity then
        Ring((if items == [] then [] else items[1..]) + [x], capacity)
      else Ring(items + [x], capacity)
    }

    function PushAll(xs: seq<T>): Ring<T>
      decreases xs
    {
      if xs == [] then this else Push(xs[0]).PushAll(xs[1..])
    }

    /** `query` with an optional kind: the matching items, oldest first. */
    function Query(matches: T -> bool): seq<T> {
      Filter(items, matches)
    }
  }

  function Filter<T>(xs: seq<T>, matches: T -> bool): (r: seq<T>)
    ensures |r| <= |xs|
  {
    if xs == [] then []
    else if matches(xs[0]) then [xs[0]] + Filter(xs[1..], matches)
    else Filter(xs[1..], matches)
  }

  lemma {:induction false} FilterMembers<T>(xs: seq<T>, matches: T -> bool)
    ensures forall x :: x in Filter(xs, matches) <==> x in xs && matches(x)
    decreases xs
  {
    if xs != [] {
      FilterMembers(xs[1..], matches);
      assert forall x :: x in xs <==> x == xs[0] || x in xs[1..];
    }
  }

  /** The last `n` elements, or all of them. */
  function Tail<T>(xs: seq<T>, n: nat): seq<T> {
    if |xs| <= n then xs else xs[|xs| - n..]
  }

  function Bound(capacity: nat): (r: nat) {
    if capacity == 0 then 1 else capacity
  }

  lemma {:induction false} PushKeepsTail<T>(r: Ring<T>, past: seq<T>, x: T)
    requires r.items == Tail(past, Bound(r.capacity))
    ensures r.Push(x).items == Tail(past + [x], Bound(r.capacity)) && r.Push(x).capacity == r.capacity
  {
    var b := Bound(r.capacity);
    if |past| < b {
      assert r.Push(x).items == past + [x];
    } else {
      assert (past + [x])[|past| + 1 - b..] == past[|past| - b..][1..] + [x];
    }
  }

  /** After any pushes the ring holds exactly the last min(n, capacity) events in
      order; a ring of capacity 0 behaves as one of capacity 1. */
  lemma {:induction false} RingHoldsTail<T>(r: Ring<T>, past: seq<T>, xs: seq<T>)
    requires r.items == Tail(past, Bound(r.capacity))
    ensures r.PushAll(xs).items == Tail(past + xs, Bound(r.capacity)) && r.PushAll(xs).capacity == r.capacity
    decreases xs
  {
    if xs == [] {
      assert past + xs == past;
    } else {
      PushKeepsTail(r, past, xs[0]);
      RingHoldsTail(r.Push(xs[0]), past + [xs[0]], xs[1..]);
      assert past + [xs[0]] + xs[1..] == past + xs;
    }
  }

  // ---- the polling stream ----

  /** One connection: how many matching events the last poll saw, and what was sent. */
  class EventStream<T> {
    var lastCount: nat
    var sent: seq<T>

    constructor ()
      ensures lastCount == 0 && sent == []
    {
      lastCount, sent := 0, [];
    }

    /** One turn of the loop: send what is new since the last poll. */
    method Poll(ring: Ring<T>, matches: T -> bool)
      modifies this
      ensures (lastCount, sent) == PollStep(old(lastCount), old(sent), ring, matches)
    {
      var events := ring.Query(matches);
      if |events| > lastCount {
        var sentBefore := sent;
        for i := lastCount to |events|
          invariant old(lastCount) == lastCount
          invariant sent == sentBefore + events[lastCount..i]
        {
          sent := sent + [events[i]];
        }
        assert events[lastCount..|events|] == events[lastCount..];
        lastCount := |events|;
      }
    }
  }

  function PollStep<T>(lastCount: nat, sent: seq<T>, ring: Ring<T>, matches: T -> bool): (nat, seq<T>) {
    var events := ring.Query(matches);
    if |events| > lastCount then (|events|, sent + events[lastCount..]) else (lastCount, sent)
  }

  datatype StreamRun<T> = StreamRun(ring: Ring<T>, lastCount: nat, sent: seq<T>)

  /** Each batch of pushes is followed by one poll. */
  function RunStream<T>(r: Ring<T>, batches: seq<seq<T>>, matches: T -> bool): StreamRun<T> {
    if batches == [] then StreamRun(r, 0, [])
    else
      var before := RunStream(r, batches[..|batches| - 1], matches);
      var ring := before.ring.PushAll(batches[|batches| - 1]);
      var (n, sent) := PollStep(before.lastCount, before.sent, ring, matches);
      StreamRun(ring, n, sent)
  }

  /** Everything pushed by the first batches, in order. */
  function Pushed<T>(batches: seq<seq<T>>): seq<T> {
    if batches == [] then [] else Pushed(batches[..|batches| - 1]) + batches[|batches| - 1]
  }

  lemma {:induction false} FilterConcat<T>(xs: seq<T>, ys: seq<T>, matches: T -> bool)
    ensures Filter(xs + ys, matches) == Filter(xs, matches) + Filter(ys, matches)
    decreases xs
  {
    if xs == [] {
      assert xs + ys == ys;
    } else {
      FilterConcat(xs[1..], ys, matches);
      FilterStep(xs, ys, matches);
    }
  }

  lemma FilterStep<T>(xs: seq<T>, ys: seq<T>, matches: T -> bool)
    requires xs != []
    ensures Filter(xs + ys, matches) ==
              if matches(xs[0]) then [xs[0]] + Filter(xs[1..] + ys, matches) else Filter(xs[1..] + ys, matches)
  {
    assert (xs + ys)[1..] == xs[1..] + ys;
  }

  /** The matching events in the ring are the last of all matching events. */
  lemma RingFilter<T>(capacity: nat, batches: seq<seq<T>>, matches: T -> bool)
    ensures
      var s := RunStream(Ring([], capacity), batches, matches);
      var all, held := Filter(Pushed(batches), matches), s.ring.Query(matches);
      && s.ring.capacity == capacity
      && s.ring.items == Tail(Pushed(batches), Bound(capacity))
      && |held| <= |all| && held == all[|all| - |held|..]
  {
    var all := Pushed(batches);
    if batches != [] {
      RingFilter(capacity, batches[..|batches| - 1], matches);
      var before := RunStream(Ring([], capacity), batches[..|batches| - 1], matches);
      RingHoldsTail(before.ring, Pushed(batches[..|batches| - 1]), batches[|batches| - 1]);
    }
    var held := Tail(all, Bound(capacity));
    var dropped := all[..|all| - |held|];
    assert all == dropped + held;
    FilterConcat(dropped, held, matches);
  }

  /** Some poll found every event that matches by the end still in the ring. */
  ghost predicate SawEverything<T>(capacity: nat, batches: seq<seq<T>>, matches: T -> bool) {
    exists k :: 1 <= k <= |batches| &&
      RunStream(Ring([], capacity), batches[..k], matches).ring.Query(matches) == Filter(Pushed(batches), matches)
  }

  lemma {:induction false} PushedPrefix<T>(batches: seq<seq<T>>, k: nat, matches: T -> bool)
    requires k <= |batches|
    ensures Filter(Pushed(batches[..k]), matches) <= Filter(Pushed(batches), matches)
    decreases |batches|
  {
    if k == |batches| {
      assert batches[..k] == batches;
    } else {
      var init := batches[..|batches| - 1];
      PushedPrefix(init, k, matches);
      assert init[..k] == batches[..k];
      FilterConcat(Pushed(init), batches[|batches| - 1], matches);
    }
  }

  /** The cursor is the largest number of matching events any poll has seen. */
  lemma {:induction false} CursorIsLargest<T>(capacity: nat, batches: seq<seq<T>>, matches: T -> bool)
    ensures
      var s := RunStream(Ring([], capacity), batches, matches);
      && |s.sent| == s.lastCount
      && (forall k :: 1 <= k <= |batches| ==>
            |RunStream(Ring([], capacity), batches[..k], matches).ring.Query(matches)| <= s.lastCount)
      && (s.lastCount == 0 || exists k ::
            (1 <= k <= |batches| &&
             |RunStream(Ring([], capacity), batches[..k], matches).ring.Query(matches)| == s.lastCount))
    decreases batches
  {
    if batches != [] {
      var init := batches[..|batches| - 1];
      CursorIsLargest(capacity, init, matches);
      assert forall k :: 1 <= k < |batches| ==> init[..k] == batches[..k];
      assert batches[..|batches|] == batches;
      var s := RunStream(Ring([], capacity), init, matches);
      if s.lastCount > 0 {
        var k :| 1 <= k <= |init| &&
          |RunStream(Ring([], capacity), init[..k], matches).ring.Query(matches)| == s.lastCount;
        assert init[..k] == batches[..k];
      }
    }
  }

  /** While every matching event is still in the ring, the stream has sent each of
      them exactly once, in order. */
  lemma {:induction false} CompleteWhileHeld<T>(capacity: nat, batches: seq<seq<T>>, matches: T -> bool)
    requires RunStream(Ring([], capacity), batches, matches).ring.Query(matches) == Filter(Pushed(batches), matches)
    ensures RunStream(Ring([], capacity), batches, matches).sent == Filter(Pushed(batches), matches)
    decreases batches
  {
    if batches != [] {
      var init := batches[..|batches| - 1];
      var last := batches[|batches| - 1];
      var before, all := RunStream(Ring([], capacity), init, matches), Filter(Pushed(batches), matches);
      RingFilter(capacity, init, matches);
      FilterConcat(Pushed(init), last, matches);
      EarlierHeld(capacity, init, last, matches);
      CompleteWhileHeld(capacity, init, matches);
      CursorIsLargest(capacity, init, matches);
      assert before.sent + all[|before.sent|..] == all;
    }
  }

  function Dropped<T>(xs: seq<T>, n: nat): seq<T> {
    xs[..|xs| - |Tail(xs, n)|]
  }

  lemma HeldIffNothingDropped<T>(xs: seq<T>, n: nat, matches: T -> bool)
    ensures Filter(Tail(xs, n), matches) == Filter(xs, matches) <==> Filter(Dropped(xs, n), matches) == []
  {
    assert xs == Dropped(xs, n) + Tail(xs, n);
    FilterConcat(Dropped(xs, n), Tail(xs, n), matches);
  }

  /** If nothing that matches is missing after more pushes, nothing was missing before. */
  lemma EarlierHeld<T>(capacity: nat, init: seq<seq<T>>, last: seq<T>, matches: T -> bool)
    requires RunStream(Ring([], capacity), init + [last], matches).ring.Query(matches) ==
               Filter(Pushed(init + [last]), matches)
    ensures RunStream(Ring([], capacity), init, matches).ring.Query(matches) == Filter(Pushed(init), matches)
  {
    assert (init + [last])[..|init|] == init;
    RingFilter(capacity, init, matches);
    RingFilter(capacity, init + [last], matches);
    HeldIffNothingDropped(Pushed(init), Bound(capacity), matches);
    HeldIffNothingDropped(Pushed(init + [last]), Bound(capacity), matches);
    DroppedGrows(Pushed(init), last, Bound(capacity), matches);
  }

  lemma DroppedGrows<T>(xs: seq<T>, ys: seq<T>, n: nat, matches: T -> bool)
    ensures Filter(Dropped(xs + ys, n), matches) == [] ==> Filter(Dropped(xs, n), matches) == []
  {
    var rest := Dropped(xs + ys, n)[|Dropped(xs, n)|..];
    assert Dropped(xs + ys, n) == Dropped(xs, n) + rest;
    FilterConcat(Dropped(xs, n), rest, matches);
  }

  /** After at least one poll the stream has sent every matching event, each once and
      in order, if and only if some poll found all of them still in the ring. */
  lemma StreamCompleteIff<T>(capacity: nat, batches: seq<seq<T>>, matches: T -> bool)
    requires batches != []
    ensures RunStream(Ring([], capacity), batches, matches).sent == Filter(Pushed(batches), matches)
       <==> SawEverything(capacity, batches, matches)
  {
    var s, all := RunStream(Ring([], capacity), batches, matches), Filter(Pushed(batches), matches);
    CursorIsLargest(capacity, batches, matches);
    if s.sent == all {
      var k := 1;
      if s.lastCount > 0 {
        k :| 1 <= k <= |batches| &&
          |RunStream(Ring([], capacity), batches[..k], matches).ring.Query(matches)| == s.lastCount;
      }
      RingFilter(capacity, batches[..k], matches);
      PushedPrefix(batches, k, matches);
      var held := RunStream(Ring([], capacity), batches[..k], matches).ring.Query(matches);
      assert |held| == |all| && held == all;
    }
    if SawEverything(capacity, batches, matches) {
      var k :| 1 <= k <= |batches| &&
        RunStream(Ring([], capacity), batches[..k], matches).ring.Query(matches) == all;
      RingFilter(capacity, batches[..k], matches);
      PushedPrefix(batches, k, matches);
      CompleteWhileHeld(capacity, batches[..k], matches);
      NothingMoreSent(capacity, batches, k, matches);
    }
  }

  lemma {:induction false} NothingMoreSent<T>(capacity: nat, batches: seq<seq<T>>, k: nat, matches: T -> bool)
    requires k <= |batches|
    requires RunStream(Ring([], capacity), batches[..k], matches).sent == Filter(Pushed(batches), matches)
    ensures RunStream(Ring([], capacity), batches, matches).sent == Filter(Pushed(batches), matches)
    decreases |batches|
  {
    if k == |batches| {
      assert batches[..k] == batches;
    } else {
      var init := batches[..|batches| - 1];
      assert init[..k] == batches[..k];
      FilterConcat(Pushed(init), batches[|batches| - 1], matches);
      CursorIsLargest(capacity, batches[..k], matches);
      PushedPrefix(init, k, matches);
      SentBound(capacity, batches[..k], matches);
      NothingMoreSent(capacity, init, k, matches);
      CursorIsLargest(capacity, init, matches);
      RingFilter(capacity, batches, matches);
    }
  }

  /** No more is sent than was pushed. */
  lemma SentBound<T>(capacity: nat, batches: seq<seq<T>>, matches: T -> bool)
    ensures |RunStream(Ring([], capacity), batches, matches).sent| <= |Filter(Pushed(batches), matches)|
  {
    CursorIsLargest(capacity, batches, matches);
    var s := RunStream(Ring([], capacity), batches, matches);
    if s.lastCount > 0 {
      var k :| 1 <= k <= |batches| &&
        |RunStream(Ring([], capacity), batches[..k], matches).ring.Query(matches)| == s.lastCount;
      RingFilter(capacity, batches[..k], matches);
      PushedPrefix(batches, k, matches);
    }
  }
}

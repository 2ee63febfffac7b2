/** The placement evaluator (src/domain/evaluation.rs): greedy placement of the copies
    of a task group on nodes, and its optimality. Scores are exact reals. */
module Placement {
  import opened Common
  import opened Domain
  import opened StateStore

  datatype Strategy = BinPack | Spread

  /** A ready node and what is left of its resources in this evaluation. */
  datatype Candidate = Candidate(node: Node, available: Resources)

  /** `constraints_match` enters as an arbitrary predicate on nodes. */
  type Match = Node -> bool

  predicate ResourcesSufficient(available: Resources, required: Resources) {
    || (required.cpuMhz == 0 && required.memoryMb == 0)
    || (&& (required.cpuMhz == 0 || available.cpuMhz >= required.cpuMhz)
        && (required.memoryMb == 0 || available.memoryMb >= required.memoryMb))
  }

  function SaturatingSub(a: nat, b: nat): nat { if a >= b then a - b else 0 }

  function Minus(a: Resources, b: Resources): Resources {
    Resources(SaturatingSub(a.cpuMhz, b.cpuMhz), SaturatingSub(a.memoryMb, b.memoryMb))
  }

  function Max1(n: nat): (r: nat)
    ensures r >= 1
  {
    if n == 0 then 1 else n
  }

  /** Bin packing prefers the least remaining share of a node, spreading the most. */
  function Score(strategy: Strategy, c: Candidate, required: Resources): real {
    var left := Minus(c.available, required);
    var cpu := left.cpuMhz as real / Max1(c.node.totalResources.cpuMhz) as real;
    var mem := left.memoryMb as real / Max1(c.node.totalResources.memoryMb) as real;
    match strategy
    case BinPack => ((1.0 - cpu) + (1.0 - mem)) / 2.0
    case Spread => (cpu + mem) / 2.0
  }

  /** What is left has at least the request, and the node matches. */
  ghost predicate Suits(c: Candidate, required: Resources, matches: Match) {
    c.available.cpuMhz >= required.cpuMhz && c.available.memoryMb >= required.memoryMb && matches(c.node)
  }

  /** What would remain of the node after the request, as a share of its total; a total of 0
      counts as 1. */
  ghost function Share(left: int, total: nat): real {
    if total == 0 then left as real else left as real / total as real
  }

  /** The two remaining shares together. */
  ghost function Remaining(c: Candidate, required: Resources): real {
    Share(c.available.cpuMhz - required.cpuMhz, c.node.totalResources.cpuMhz)
    + Share(c.available.memoryMb - required.memoryMb, c.node.totalResources.memoryMb)
  }

  /** Bin packing prefers the candidate that keeps less, spreading the one that keeps more. */
  ghost predicate Prefers(strategy: Strategy, c: Candidate, d: Candidate, required: Resources) {
    match strategy
    case BinPack => Remaining(c, required) < Remaining(d, required)
    case Spread => Remaining(c, required) > Remaining(d, required)
  }

  /** `b` suits, no other suitable candidate is preferred to it, and it is to every suitable one
      before it. */
  ghost predicate Best(cands: seq<Candidate>, required: Resources, matches: Match, strategy: Strategy, b: nat) {
    && b < |cands| && Suits(cands[b], required, matches)
    && (forall i :: 0 <= i < |cands| && Suits(cands[i], required, matches) ==>
          !Prefers(strategy, cands[i], cands[b], required))
    && (forall i :: 0 <= i < b && Suits(cands[i], required, matches) ==>
          Prefers(strategy, cands[b], cands[i], required))
  }

  lemma ScoreOrders(strategy: Strategy, c: Candidate, d: Candidate, required: Resources, matches: Match)
    requires Suits(c, required, matches) && Suits(d, required, matches)
    ensures Score(strategy, c, required) > Score(strategy, d, required) <==> Prefers(strategy, c, d, required)
  {
    ScoreIs(strategy, c, required, matches);
    ScoreIs(strategy, d, required, matches);
    hide Score, Remaining;
  }

  lemma ScoreIs(strategy: Strategy, c: Candidate, required: Resources, matches: Match)
    requires Suits(c, required, matches)
    ensures Score(strategy, c, required) ==
              match strategy
              case BinPack => 1.0 - Remaining(c, required) / 2.0
              case Spread => Remaining(c, required) / 2.0
  {}

  /** Of two suitable nodes of the same size, one of which would keep more of a resource and no
      less of the other, bin packing never takes the one that keeps more, and spreading never
      the other. */
  lemma NeverAgainstStrategy(cands: seq<Candidate>, required: Resources, matches: Match, strategy: Strategy, b: nat,
                             more: nat, less: nat)
    requires Best(cands, required, matches, strategy, b) && more < |cands| && less < |cands|
    requires Suits(cands[more], required, matches) && Suits(cands[less], required, matches)
    requires cands[more].node.totalResources == cands[less].node.totalResources
    requires cands[more].available.cpuMhz >= cands[less].available.cpuMhz
             && cands[more].available.memoryMb >= cands[less].available.memoryMb
             && cands[more].available != cands[less].available
    ensures strategy == BinPack ==> b != more
    ensures strategy == Spread ==> b != less
  {
    var total := cands[more].node.totalResources;
    ShareGrows(cands[less].available.cpuMhz - required.cpuMhz, cands[more].available.cpuMhz - required.cpuMhz,
               total.cpuMhz);
    ShareGrows(cands[less].available.memoryMb - required.memoryMb, cands[more].available.memoryMb - required.memoryMb,
               total.memoryMb);
    hide Share;
    assert Remaining(cands[more], required) > Remaining(cands[less], required);
  }

  lemma ShareGrows(a: int, b: int, total: nat)
    requires a <= b
    ensures Share(a, total) <= Share(b, total) && (a < b ==> Share(a, total) < Share(b, total))
  {
    if total > 0 {
      var t := total as real;
      assert b as real / t - a as real / t == (b - a) as real / t;
    }
  }

  /** The first of the candidates that suit and to which none is preferred. */
  method PickNode(cands: seq<Candidate>, required: Resources, matches: Match, strategy: Strategy)
    returns (best: Option<nat>)
    ensures best.None? <==> forall i :: 0 <= i < |cands| ==> !Suits(cands[i], required, matches)
    ensures best.Some? ==> Best(cands, required, matches, strategy, best.value)
  {
    hide Score, Suits, Prefers;
    best := None;
    var bestScore := 0.0;
    for idx := 0 to |cands|
      invariant best.None? <==> forall i :: 0 <= i < idx ==> !Suits(cands[i], required, matches)
      invariant best.Some? ==>
                  && best.value < idx && Suits(cands[best.value], required, matches)
                  && bestScore == Score(strategy, cands[best.value], required)
                  && (forall i :: 0 <= i < idx && Suits(cands[i], required, matches) ==>
                        !Prefers(strategy, cands[i], cands[best.value], required))
                  && (forall i :: 0 <= i < best.value && Suits(cands[i], required, matches) ==>
                        Prefers(strategy, cands[best.value], cands[i], required))
    {
      SuitsIs(cands[idx], required, matches);
      if !ResourcesSufficient(cands[idx].available, required) {
        continue;
      }
      if !matches(cands[idx].node) {
        continue;
      }
      var score := Score(strategy, cands[idx], required);
      if best.Some? {
        PreferenceOrders(strategy, cands, best.value, idx, required, matches);
      } else {
        PrefersNotItself(strategy, cands[idx], required);
      }
      if best.None? || score > bestScore {
        best, bestScore := Some(idx), score;
      }
    }
  }

  lemma SuitsIs(c: Candidate, required: Resources, matches: Match)
    ensures Suits(c, required, matches) <==> ResourcesSufficient(c.available, required) && matches(c.node)
  {}

  lemma PrefersNotItself(strategy: Strategy, c: Candidate, required: Resources)
    ensures !Prefers(strategy, c, c, required)
  {}

  lemma PreferenceOrders(strategy: Strategy, cands: seq<Candidate>, b: nat, idx: nat, required: Resources,
                         matches: Match)
    requires b < idx < |cands| && Suits(cands[b], required, matches) && Suits(cands[idx], required, matches)
    requires forall i :: 0 <= i < idx && Suits(cands[i], required, matches) ==>
               !Prefers(strategy, cands[i], cands[b], required)
    ensures Score(strategy, cands[idx], required) > Score(strategy, cands[b], required) <==>
              Prefers(strategy, cands[idx], cands[b], required)
    ensures !Prefers(strategy, cands[idx], cands[idx], required)
    ensures Prefers(strategy, cands[idx], cands[b], required) ==>
              forall i :: 0 <= i < idx && Suits(cands[i], required, matches) ==>
                  Prefers(strategy, cands[idx], cands[i], required)
                  && !Prefers(strategy, cands[i], cands[idx], required)
  {
    ScoreOrders(strategy, cands[idx], cands[b], required, matches);
    hide Score, Remaining, Suits;
  }

  // ---- what an assignment of copies to nodes may be ----

  /** `k` copies of the request fit in `available`. */
  predicate CanHost(available: Resources, required: Resources, k: nat) {
    k * required.cpuMhz <= available.cpuMhz && k * required.memoryMb <= available.memoryMb
  }

  function Sum(counts: seq<nat>): nat {
    if counts == [] then 0 else Sum(counts[..|counts| - 1]) + counts[|counts| - 1]
  }

  /** `counts[i]` copies on node i: only on nodes that match, never more than fit. */
  ghost predicate Feasible(nodes: seq<Node>, required: Resources, matches: Match, counts: seq<nat>) {
    && |counts| == |nodes|
    && forall i :: 0 <= i < |nodes| ==>
         CanHost(nodes[i].availableResources, required, counts[i]) && (counts[i] > 0 ==> matches(nodes[i]))
  }

  /** How many copies fit on one node, counting no further than `limit`. */
  function Copies(available: Resources, required: Resources, limit: nat): (k: nat)
    ensures k <= limit && CanHost(available, required, k)
    ensures forall j :: 0 <= j <= limit && CanHost(available, required, j) ==> j <= k
  {
    if limit == 0 then 0
    else if CanHost(available, required, limit) then limit
    else Copies(available, required, limit - 1)
  }

  function Capacity(nodes: seq<Node>, required: Resources, matches: Match, limit: nat): (r: seq<nat>)
    ensures |r| == |nodes|
  {
    seq(|nodes|, i requires 0 <= i < |nodes| =>
      if matches(nodes[i]) then Copies(nodes[i].availableResources, required, limit) else 0)
  }

  function Min(a: nat, b: nat): nat { if a <= b then a else b }

  /** The number of copies that are placed, whatever the strategy. */
  function Placeable(nodes: seq<Node>, required: Resources, matches: Match, count: nat): nat {
    Min(count, Sum(Capacity(nodes, required, matches, count)))
  }

  lemma Quotient(k: nat, need: nat, have: nat)
    requires need > 0
    ensures k * need <= have <==> k <= have / need
  {
    if k <= have / need {
      assert k * need <= (have / need) * need;
    } else {
      assert k * need >= (have / need + 1) * need;
    }
  }

  /** In terms of division: the tighter of the two resources decides, and a resource
      that is not requested never does. */
  lemma CopiesIsQuotient(available: Resources, required: Resources, limit: nat)
    ensures
      var cpu := if required.cpuMhz == 0 then limit else available.cpuMhz / required.cpuMhz;
      var mem := if required.memoryMb == 0 then limit else available.memoryMb / required.memoryMb;
      Copies(available, required, limit) == Min(limit, Min(cpu, mem))
  {
    var k := Copies(available, required, limit);
    var cpu := if required.cpuMhz == 0 then limit else available.cpuMhz / required.cpuMhz;
    var mem := if required.memoryMb == 0 then limit else available.memoryMb / required.memoryMb;
    var m := Min(limit, Min(cpu, mem));
    if required.cpuMhz > 0 {
      Quotient(k, required.cpuMhz, available.cpuMhz);
      Quotient(m, required.cpuMhz, available.cpuMhz);
    }
    if required.memoryMb > 0 {
      Quotient(k, required.memoryMb, available.memoryMb);
      Quotient(m, required.memoryMb, available.memoryMb);
    }
    assert CanHost(available, required, m);
  }

  lemma Smaller(a: nat, b: nat, need: nat)
    requires a <= b
    ensures a * need <= b * need
  {}

  lemma FewerFit(available: Resources, required: Resources, a: nat, b: nat)
    requires a <= b && CanHost(available, required, b)
    ensures CanHost(available, required, a)
  {
    Smaller(a, b, required.cpuMhz);
    Smaller(a, b, required.memoryMb);
  }

  lemma {:induction false} SumMonotone(a: seq<nat>, b: seq<nat>)
    requires |a| == |b| && forall i :: 0 <= i < |a| ==> a[i] <= b[i]
    ensures Sum(a) <= Sum(b)
    decreases a
  {
    if a != [] {
      SumMonotone(a[..|a| - 1], b[..|b| - 1]);
    }
  }

  lemma {:induction false} SumBump(a: seq<nat>, i: nat)
    requires i < |a|
    ensures Sum(a[i := a[i] + 1]) == Sum(a) + 1
    decreases a
  {
    var n := |a| - 1;
    if i < n {
      SumBump(a[..n], i);
      assert a[i := a[i] + 1][..n] == a[..n][i := a[i] + 1];
    } else {
      assert a[i := a[i] + 1][..n] == a[..n];
    }
  }

  lemma {:induction false} SumZero(a: seq<nat>)
    requires forall i :: 0 <= i < |a| ==> a[i] == 0
    ensures Sum(a) == 0
    decreases a
  {
    if a != [] {
      SumZero(a[..|a| - 1]);
    }
  }

  /** A feasible assignment that cannot be extended on any matching node. */
  ghost predicate Stuck(nodes: seq<Node>, required: Resources, matches: Match, counts: seq<nat>)
    requires |counts| == |nodes|
  {
    forall i :: 0 <= i < |nodes| && matches(nodes[i]) ==> !CanHost(nodes[i].availableResources, required, counts[i] + 1)
  }

  /** An assignment that cannot be extended has, node by node, at least as many copies
      as any other. */
  lemma StuckDominates(nodes: seq<Node>, required: Resources, matches: Match, counts: seq<nat>, other: seq<nat>)
    requires Feasible(nodes, required, matches, counts) && Stuck(nodes, required, matches, counts)
    requires Feasible(nodes, required, matches, other)
    ensures Sum(other) <= Sum(counts)
  {
    forall i | 0 <= i < |nodes| ensures other[i] <= counts[i] {
      if other[i] > counts[i] {
        FewerFit(nodes[i].availableResources, required, counts[i] + 1, other[i]);
      }
    }
    SumMonotone(other, counts);
  }

  lemma CapacityFeasible(nodes: seq<Node>, required: Resources, matches: Match, count: nat)
    ensures Feasible(nodes, required, matches, Capacity(nodes, required, matches, count))
  {}

  /** Greedy placement, stopped by the count or by being stuck, places exactly
      min(count, sum of what fits). */
  lemma GreedyCount(nodes: seq<Node>, required: Resources, matches: Match, count: nat, counts: seq<nat>)
    requires Feasible(nodes, required, matches, counts) && Sum(counts) <= count
    requires Sum(counts) == count || Stuck(nodes, required, matches, counts)
    ensures Sum(counts) == Placeable(nodes, required, matches, count)
  {
    var cap := Capacity(nodes, required, matches, count);
    CapacityFeasible(nodes, required, matches, count);
    forall i | 0 <= i < |nodes| ensures counts[i] <= cap[i] {
      PartAtMostSum(counts, i);
    }
    SumMonotone(counts, cap);
    if Sum(counts) < count {
      StuckDominates(nodes, required, matches, counts, cap);
    }
  }

  lemma {:induction false} PartAtMostSum(a: seq<nat>, i: nat)
    requires i < |a|
    ensures a[i] <= Sum(a)
    decreases a
  {
    if i < |a| - 1 {
      PartAtMostSum(a[..|a| - 1], i);
    }
  }

  /** No assignment of at most `count` copies places more: the greedy number is the
      maximum. */
  lemma PlaceableIsMaximum(nodes: seq<Node>, required: Resources, matches: Match, count: nat, other: seq<nat>)
    requires Feasible(nodes, required, matches, other) && Sum(other) <= count
    ensures Sum(other) <= Placeable(nodes, required, matches, count)
  {
    var cap := Capacity(nodes, required, matches, count);
    forall i | 0 <= i < |nodes| ensures other[i] <= cap[i] {
      PartAtMostSum(other, i);
    }
    SumMonotone(other, cap);
  }

  // ---- the evaluator ----

  /** What is tracked for node i after `k` copies were deducted: exactly k requests
      less, so no subtraction has saturated. */
  ghost predicate Tracks(c: Candidate, node: Node, required: Resources, k: nat) {
    && c.node == node && CanHost(node.availableResources, required, k)
    && c.available == Resources(node.availableResources.cpuMhz - k * required.cpuMhz,
                                node.availableResources.memoryMb - k * required.memoryMb)
  }

  lemma OneMoreFits(c: Candidate, node: Node, required: Resources, k: nat)
    requires Tracks(c, node, required, k)
    ensures ResourcesSufficient(c.available, required) <==> CanHost(node.availableResources, required, k + 1)
    ensures CanHost(node.availableResources, required, k + 1) ==>
              Tracks(c.(available := Minus(c.available, required)), node, required, k + 1)
  {
    assert (k + 1) * required.cpuMhz == k * required.cpuMhz + required.cpuMhz;
    assert (k + 1) * required.memoryMb == k * required.memoryMb + required.memoryMb;
  }

  /** Copies of the group on each node, by node id. */
  ghost predicate PlacedAs(allocs: seq<Allocation>, job: Job, group: TaskGroup, nodes: seq<Node>, choices: seq<nat>) {
    && |allocs| == |choices|
    && forall k :: 0 <= k < |allocs| ==>
         && choices[k] < |nodes| && allocs[k].nodeId == nodes[choices[k]].id
         && allocs[k].jobId == job.id && allocs[k].groupName == group.name && allocs[k].state == Pending
         && allocs[k].jobVersion == 0 && allocs[k].taskStates == NewTaskStates(group.tasks)
  }

  function Count(choices: seq<nat>, i: nat): nat {
    if choices == [] then 0
    else Count(choices[..|choices| - 1], i) + (if choices[|choices| - 1] == i then 1 else 0)
  }

  /** `Allocation::new`, with a random id and the current time. */
  method NewAllocation(jobId: string, groupName: string, nodeId: string, tasks: seq<Task>) returns (a: Allocation)
    ensures a.jobId == jobId && a.groupName == groupName && a.nodeId == nodeId && a.state == Pending
    ensures a.jobVersion == 0 && a.taskStates == NewTaskStates(tasks)
  {
    var id: Uuid := *;
    var now: Time := *;
    a := Allocation(id, jobId, groupName, nodeId, Pending, now, NewTaskStates(tasks), 0);
  }

  ghost predicate Tracked(available: seq<Candidate>, nodes: seq<Node>, required: Resources, matches: Match,
                          counts: seq<nat>)
  {
    && |available| == |nodes| && Feasible(nodes, required, matches, counts)
    && forall i :: 0 <= i < |nodes| ==> Tracks(available[i], nodes[i], required, counts[i])
  }

  lemma NothingSuits(available: seq<Candidate>, nodes: seq<Node>, required: Resources, matches: Match, counts: seq<nat>)
    requires Tracked(available, nodes, required, matches, counts)
    ensures (forall i :: 0 <= i < |nodes| ==> !Suits(available[i], required, matches)) <==>
              Stuck(nodes, required, matches, counts)
  {
    forall i | 0 <= i < |nodes|
      ensures Suits(available[i], required, matches)
         <==> matches(nodes[i]) && CanHost(nodes[i].availableResources, required, counts[i] + 1)
    {
      OneMoreFits(available[i], nodes[i], required, counts[i]);
    }
  }

  function Deduct(available: seq<Candidate>, idx: nat, required: Resources): seq<Candidate>
    requires idx < |available|
  {
    available[idx := available[idx].(available := Minus(available[idx].available, required))]
  }

  lemma PlaceOne(available: seq<Candidate>, nodes: seq<Node>, required: Resources, matches: Match, counts: seq<nat>,
                 idx: nat)
    requires Tracked(available, nodes, required, matches, counts)
    requires idx < |nodes| && Suits(available[idx], required, matches)
    ensures Tracked(Deduct(available, idx, required), nodes, required, matches, counts[idx := counts[idx] + 1])
    ensures Sum(counts[idx := counts[idx] + 1]) == Sum(counts) + 1
  {
    SuitsIs(available[idx], required, matches);
    hide CanHost, ResourcesSufficient, Suits;
    OneMoreFits(available[idx], nodes[idx], required, counts[idx]);
    SumBump(counts, idx);
  }

  ghost predicate Counts(choices: seq<nat>, counts: seq<nat>) {
    forall i :: 0 <= i < |counts| ==> Count(choices, i) == counts[i]
  }

  lemma CountOne(choices: seq<nat>, counts: seq<nat>, idx: nat)
    requires idx < |counts| && Counts(choices, counts)
    ensures Counts(choices + [idx], counts[idx := counts[idx] + 1])
  {
    assert (choices + [idx])[..|choices|] == choices;
  }

  /** What is left on each node after the copies placed so far. */
  function Left(nodes: seq<Node>, required: Resources, placed: seq<nat>): seq<Candidate> {
    seq(|nodes|, i requires 0 <= i < |nodes| =>
      Candidate(nodes[i], Resources(
        SaturatingSub(nodes[i].availableResources.cpuMhz, Count(placed, i) * required.cpuMhz),
        SaturatingSub(nodes[i].availableResources.memoryMb, Count(placed, i) * required.memoryMb))))
  }

  /** Each copy went to the best node for what was left at that moment. */
  ghost predicate Greedy(nodes: seq<Node>, required: Resources, matches: Match, strategy: Strategy, choices: seq<nat>) {
    forall k :: 0 <= k < |choices| ==>
        Best(Left(nodes, required, choices[..k]), required, matches, strategy, choices[k])
  }

  lemma TrackedIsLeft(available: seq<Candidate>, nodes: seq<Node>, required: Resources, matches: Match,
                      counts: seq<nat>, choices: seq<nat>)
    requires Tracked(available, nodes, required, matches, counts) && Counts(choices, counts)
    ensures available == Left(nodes, required, choices)
  {
    hide Count;
  }

  lemma GreedyStep(nodes: seq<Node>, required: Resources, matches: Match, strategy: Strategy, choices: seq<nat>,
                   idx: nat)
    requires Greedy(nodes, required, matches, strategy, choices)
    requires Best(Left(nodes, required, choices), required, matches, strategy, idx)
    ensures Greedy(nodes, required, matches, strategy, choices + [idx])
  {
    hide Best, Left;
    var choices' := choices + [idx];
    forall k | 0 <= k < |choices'|
      ensures Best(Left(nodes, required, choices'[..k]), required, matches, strategy, choices'[k])
    {
      assert choices'[..k] == choices[..k];
      if k == |choices| {
        assert choices[..k] == choices;
      }
    }
  }

  /** The inner loop of `evaluate_job` for one group of a service or batch job. The
      number placed is min(count, sum over nodes of what fits), under either strategy,
      and no node is given more than it has. */
  method PlaceGroup(job: Job, group: TaskGroup, nodes: seq<Node>, matches: Match, strategy: Strategy)
    returns (allocs: seq<Allocation>, ghost choices: seq<nat>, ghost counts: seq<nat>)
    ensures PlacedAs(allocs, job, group, nodes, choices)
    ensures Feasible(nodes, group.resources, matches, counts) && Counts(choices, counts) && Sum(counts) == |allocs|
    ensures |allocs| == Placeable(nodes, group.resources, matches, group.count)
    ensures Greedy(nodes, group.resources, matches, strategy, choices)
  {
    hide Feasible, CanHost, Tracks, Counts, Sum, Stuck, Placeable, Score, Left, Greedy;
    assert Greedy(nodes, group.resources, matches, strategy, []) by {
      GreedyNothing(nodes, group.resources, matches, strategy);
    }
    var available: seq<Candidate> :=
        seq(|nodes|, i requires 0 <= i < |nodes| => Candidate(nodes[i], nodes[i].availableResources));
    allocs, choices := [], [];
    counts := seq(|nodes|, i => 0);
    NothingPlaced(available, nodes, group.resources, matches, counts);
    for instance := 0 to group.count
      invariant |counts| == |available| == |nodes|
      invariant PlacedAs(allocs, job, group, nodes, choices)
      invariant Tracked(available, nodes, group.resources, matches, counts)
      invariant Counts(choices, counts)
      invariant Sum(counts) == |allocs| <= instance
      invariant |allocs| == instance || Stuck(nodes, group.resources, matches, counts)
      invariant Greedy(nodes, group.resources, matches, strategy, choices)
    {
      var pick := PickNode(available, group.resources, matches, strategy);
      NothingSuits(available, nodes, group.resources, matches, counts);
      if pick.None? {
        continue;
      }
      var idx := pick.value;
      TrackedIsLeft(available, nodes, group.resources, matches, counts, choices);
      GreedyStep(nodes, group.resources, matches, strategy, choices, idx);
      PlaceOne(available, nodes, group.resources, matches, counts, idx);
      CountOne(choices, counts, idx);
      available := Deduct(available, idx, group.resources);
      var a := NewAllocation(job.id, group.name, nodes[idx].id, group.tasks);
      allocs, choices, counts := allocs + [a], choices + [idx], counts[idx := counts[idx] + 1];
    }
    GreedyCount(nodes, group.resources, matches, group.count, counts);
  }

  lemma GreedyNothing(nodes: seq<Node>, required: Resources, matches: Match, strategy: Strategy)
    ensures Greedy(nodes, required, matches, strategy, [])
  {}

  lemma NothingPlaced(available: seq<Candidate>, nodes: seq<Node>, required: Resources, matches: Match,
                      counts: seq<nat>)
    requires |available| == |nodes| == |counts|
    requires forall i :: 0 <= i < |nodes| ==>
               available[i] == Candidate(nodes[i], nodes[i].availableResources) && counts[i] == 0
    ensures Tracked(available, nodes, required, matches, counts) && Counts([], counts) && Sum(counts) == 0
  {
    SumZero(counts);
  }

  /** What one group contributes: a system job one copy on every ready node, any other
      job as many copies as can be placed against the full resources of those nodes. */
  ghost predicate GroupPlaced(allocs: seq<Allocation>, job: Job, group: TaskGroup, ready: seq<Node>, matches: Match,
                              strategy: Strategy)
  {
    && (forall k :: 0 <= k < |allocs| ==> allocs[k].jobId == job.id && allocs[k].groupName == group.name)
    && if job.jobType.System? then PlacedAs(allocs, job, group, ready, seq(|ready|, i => i))
       else
         exists choices, counts ::
           && PlacedAs(allocs, job, group, ready, choices) && Counts(choices, counts)
           && Feasible(ready, group.resources, matches, counts)
           && Greedy(ready, group.resources, matches, strategy, choices)
           && |allocs| == Placeable(ready, group.resources, matches, group.count)
  }

  method EvaluateGroup(job: Job, group: TaskGroup, ready: seq<Node>, matches: Match, strategy: Strategy)
    returns (allocs: seq<Allocation>)
    ensures GroupPlaced(allocs, job, group, ready, matches, strategy)
  {
    hide Placeable, Feasible, Counts, Greedy;
    if job.jobType.System? {
      allocs := OnEveryNode(job, group, ready);
    } else {
      ghost var choices, counts;
      allocs, choices, counts := PlaceGroup(job, group, ready, matches, strategy);
    }
  }

  /** What `evaluate_job` makes of a job: group by group, nothing when no node is ready. */
  ghost predicate JobPlaced(allocs: seq<Allocation>, job: Job, ready: seq<Node>, matches: Match, strategy: Strategy) {
    exists perGroup ::
      && allocs == Flatten(perGroup) && |perGroup| == (if ready == [] then 0 else |job.groups|)
      && forall g :: 0 <= g < |perGroup| ==> GroupPlaced(perGroup[g], job, job.groups[g], ready, matches, strategy)
  }

  /** `evaluate_job`. The tracked resources are rebuilt for every group. */
  method EvaluateJob(job: Job, nodes: seq<Node>, matches: Match, strategy: Strategy) returns (allocs: seq<Allocation>)
    ensures JobPlaced(allocs, job, Ready(nodes), matches, strategy)
    ensures OnUsable(allocs, job, nodes, matches)
  {
    hide GroupPlaced, Flatten;
    var ready := Ready(nodes);
    allocs := [];
    ghost var perGroup := [];
    FlattenNothing();
    if ready != [] {
      for g := 0 to |job.groups|
        invariant |perGroup| == g && allocs == Flatten(perGroup)
        invariant forall h :: 0 <= h < g ==> GroupPlaced(perGroup[h], job, job.groups[h], ready, matches, strategy)
      {
        var placed := EvaluateGroup(job, job.groups[g], ready, matches, strategy);
        FlattenStep(perGroup, placed);
        allocs, perGroup := allocs + placed, perGroup + [placed];
      }
    }
    JobOnUsable(allocs, job, nodes, matches, strategy);
  }

  lemma FlattenNothing()
    ensures Flatten<Allocation>([]) == []
  {}

  method OnEveryNode(job: Job, group: TaskGroup, ready: seq<Node>) returns (allocs: seq<Allocation>)
    ensures PlacedAs(allocs, job, group, ready, seq(|ready|, i => i))
  {
    allocs := [];
    for i := 0 to |ready|
      invariant PlacedAs(allocs, job, group, ready, seq(i, j => j))
    {
      var a := NewAllocation(job.id, group.name, ready[i].id, group.tasks);
      allocs := allocs + [a];
    }
  }

  /** The ready and eligible nodes, in list order. */
  function Ready(nodes: seq<Node>): seq<Node> {
    if nodes == [] then []
    else if nodes[0].Usable() then [nodes[0]] + Ready(nodes[1..])
    else Ready(nodes[1..])
  }

  lemma {:induction false} ReadyMembers(nodes: seq<Node>)
    ensures forall n :: n in Ready(nodes) <==> n in nodes && n.status == NodeReady && n.eligible
    decreases nodes
  {
    if nodes != [] {
      ReadyMembers(nodes[1..]);
      assert forall n :: n in nodes <==> n == nodes[0] || n in nodes[1..];
    }
  }

  /** Every allocation sits on a node of the list that is ready, eligible and, but for a system
      job, matches; without such a node nothing is placed. */
  ghost predicate OnUsable(allocs: seq<Allocation>, job: Job, nodes: seq<Node>, matches: Match) {
    forall k :: 0 <= k < |allocs| ==> Hosted(allocs[k], job, nodes, matches)
  }

  ghost predicate Hosted(a: Allocation, job: Job, nodes: seq<Node>, matches: Match) {
    exists n :: n in nodes && MayHost(n, a, job, matches)
  }

  ghost predicate MayHost(n: Node, a: Allocation, job: Job, matches: Match) {
    n.id == a.nodeId && n.status == NodeReady && n.eligible && (job.jobType == System || matches(n))
  }

  lemma GroupOnUsable(allocs: seq<Allocation>, job: Job, group: TaskGroup, nodes: seq<Node>, matches: Match,
                      strategy: Strategy)
    requires GroupPlaced(allocs, job, group, Ready(nodes), matches, strategy)
    ensures OnUsable(allocs, job, nodes, matches)
  {
    hide Placeable, Feasible, Counts, Prefers, Left;
    var ready := Ready(nodes);
    ReadyMembers(nodes);
    if job.jobType.System? {
      forall k | 0 <= k < |allocs| ensures Hosted(allocs[k], job, nodes, matches) {
        assert ready[k] in ready && MayHost(ready[k], allocs[k], job, matches);
      }
    } else {
      var choices, counts :| PlacedAs(allocs, job, group, ready, choices) && Counts(choices, counts)
        && Feasible(ready, group.resources, matches, counts)
        && Greedy(ready, group.resources, matches, strategy, choices)
        && |allocs| == Placeable(ready, group.resources, matches, group.count);
      forall k | 0 <= k < |allocs|
        ensures Hosted(allocs[k], job, nodes, matches)
      {
        assert Best(Left(ready, group.resources, choices[..k]), group.resources, matches, strategy, choices[k]);
        LeftNodes(ready, group.resources, choices[..k], choices[k]);
        assert ready[choices[k]] in ready && MayHost(ready[choices[k]], allocs[k], job, matches);
      }
    }
  }

  lemma LeftNodes(nodes: seq<Node>, required: Resources, placed: seq<nat>, i: nat)
    requires i < |nodes|
    ensures |Left(nodes, required, placed)| == |nodes| && Left(nodes, required, placed)[i].node == nodes[i]
  {}

  lemma {:induction false} FlattenMember<T>(xss: seq<seq<T>>, k: nat) returns (g: nat, i: nat)
    requires k < |Flatten(xss)|
    ensures g < |xss| && i < |xss[g]| && xss[g][i] == Flatten(xss)[k]
    decreases xss
  {
    var n := |xss| - 1;
    if k < |Flatten(xss[..n])| {
      g, i := FlattenMember(xss[..n], k);
    } else {
      g, i := n, k - |Flatten(xss[..n])|;
    }
  }

  lemma JobOnUsable(allocs: seq<Allocation>, job: Job, nodes: seq<Node>, matches: Match, strategy: Strategy)
    requires JobPlaced(allocs, job, Ready(nodes), matches, strategy)
    ensures OnUsable(allocs, job, nodes, matches)
  {
    hide GroupPlaced, Hosted;
    var perGroup :| allocs == Flatten(perGroup) && |perGroup| == (if Ready(nodes) == [] then 0 else |job.groups|)
      && forall g :: 0 <= g < |perGroup| ==>
           GroupPlaced(perGroup[g], job, job.groups[g], Ready(nodes), matches, strategy);
    forall k | 0 <= k < |allocs|
      ensures Hosted(allocs[k], job, nodes, matches)
    {
      var g, i := FlattenMember(perGroup, k);
      GroupOnUsable(perGroup[g], job, job.groups[g], nodes, matches, strategy);
    }
  }

  function Flatten<T>(xss: seq<seq<T>>): seq<T> {
    if xss == [] then [] else Flatten(xss[..|xss| - 1]) + xss[|xss| - 1]
  }

  // ---- one evaluation of all pending jobs ----

  /** Some job up to the i-th of the list got an allocation in this evaluation. */
  ghost predicate AnyPlaced(perJob: seq<seq<Allocation>>, i: nat) {
    exists j :: 0 <= j <= i && j < |perJob| && perJob[j] != []
  }

  function SetRunning(j: Job): Job { j.(status := JobRunning) }

  /** The status a listed job has after the evaluation. */
  ghost function Settled(jobs: seq<Job>, perJob: seq<seq<Allocation>>, i: nat): Job
    requires i < |jobs|
  {
    if jobs[i].status == JobPending && AnyPlaced(perJob, i) then jobs[i].(status := JobRunning) else jobs[i]
  }

  lemma {:induction false} NonePlaced(perJob: seq<seq<Allocation>>)
    ensures Flatten(perJob) == [] <==> forall j :: 0 <= j < |perJob| ==> perJob[j] == []
    decreases perJob
  {
    if perJob != [] {
      var init := perJob[..|perJob| - 1];
      NonePlaced(init);
      assert forall j :: 0 <= j < |init| ==> init[j] == perJob[j];
    }
  }

  lemma AnyPlacedSoFar(perJob: seq<seq<Allocation>>, allocs: seq<Allocation>)
    ensures AnyPlaced(perJob + [allocs], |perJob|) <==> Flatten(perJob + [allocs]) != []
    ensures forall i :: 0 <= i < |perJob| ==> (AnyPlaced(perJob + [allocs], i) <==> AnyPlaced(perJob, i))
  {
    NonePlaced(perJob + [allocs]);
    forall i | 0 <= i < |perJob| ensures AnyPlaced(perJob + [allocs], i) <==> AnyPlaced(perJob, i) {
      assert forall j :: 0 <= j <= i ==> (perJob + [allocs])[j] == perJob[j];
    }
  }

  /** The first `n` jobs of the list are settled, the others untouched. */
  ghost predicate SettledUpTo(m: map<string, Job>, jobs: seq<Job>, perJob: seq<seq<Allocation>>, n: nat) {
    && n <= |jobs| && |perJob| == n
    && (forall i :: 0 <= i < n && jobs[i].status != JobPending ==> perJob[i] == [])
    && (forall i :: 0 <= i < |jobs| ==> jobs[i].id in m)
    && (forall i :: 0 <= i < |jobs| ==> m[jobs[i].id] == if i < n then Settled(jobs, perJob, i) else jobs[i])
  }

  lemma SettleOne(m: map<string, Job>, jobs: seq<Job>, perJob: seq<seq<Allocation>>, allocs: seq<Allocation>,
                  m': map<string, Job>)
    requires |perJob| < |jobs| && SettledUpTo(m, jobs, perJob, |perJob|)
    requires forall i, j :: 0 <= i < j < |jobs| ==> jobs[i].id != jobs[j].id
    requires jobs[|perJob|].status != JobPending ==> allocs == []
    requires
      var job := jobs[|perJob|];
      m' == if job.status == JobPending && Flatten(perJob + [allocs]) != [] then m[job.id := SetRunning(m[job.id])]
          else m
    ensures SettledUpTo(m', jobs, perJob + [allocs], |perJob| + 1)
  {
    hide Flatten, AnyPlaced, Settled;
    SettledSoFar(jobs, perJob, allocs);
  }

  lemma SettledSoFar(jobs: seq<Job>, perJob: seq<seq<Allocation>>, allocs: seq<Allocation>)
    requires |perJob| < |jobs|
    ensures forall i :: 0 <= i < |perJob| ==> Settled(jobs, perJob + [allocs], i) == Settled(jobs, perJob, i)
    ensures
      var job := jobs[|perJob|];
      Settled(jobs, perJob + [allocs], |perJob|) ==
        if job.status == JobPending && Flatten(perJob + [allocs]) != [] then SetRunning(job) else job
  {
    hide Flatten, AnyPlaced;
    AnyPlacedSoFar(perJob, allocs);
  }

  /** The allocations put into the store one after the other. */
  function Stored(m: map<Uuid, Allocation>, allocs: seq<Allocation>): map<Uuid, Allocation> {
    if allocs == [] then m
    else
      var a := allocs[|allocs| - 1];
      Stored(m, allocs[..|allocs| - 1])[a.id := a]
  }

  ghost predicate IsLast(allocs: seq<Allocation>, i: nat, id: Uuid) {
    i < |allocs| && allocs[i].id == id && forall j :: i < j < |allocs| ==> allocs[j].id != id
  }

  /** The last of the allocations with this id is filed under it; without any it keeps what it had. */
  ghost predicate FiledAt(m: map<Uuid, Allocation>, allocs: seq<Allocation>, m': map<Uuid, Allocation>, id: Uuid) {
    && (forall i: nat :: IsLast(allocs, i, id) ==> id in m' && m'[id] == allocs[i])
    && ((forall i :: 0 <= i < |allocs| ==> allocs[i].id != id) ==>
          (id in m' <==> id in m) && (id in m ==> m'[id] == m[id]))
  }

  ghost predicate FiledLast(m: map<Uuid, Allocation>, allocs: seq<Allocation>, m': map<Uuid, Allocation>) {
    forall id :: FiledAt(m, allocs, m', id)
  }

  lemma OneMoreFiled(m: map<Uuid, Allocation>, init: seq<Allocation>, m': map<Uuid, Allocation>, a: Allocation,
                     id: Uuid)
    requires FiledAt(m, init, m', id)
    ensures FiledAt(m, init + [a], m'[a.id := a], id)
  {
    var all := init + [a];
    assert all[|init|] == a && forall i :: 0 <= i < |init| ==> all[i] == init[i];
    forall i: nat | IsLast(all, i, id) ensures id in m'[a.id := a] && m'[a.id := a][id] == all[i] {
      if i < |init| {
        assert IsLast(init, i, id);
      }
    }
  }

  lemma NothingFiled(m: map<Uuid, Allocation>)
    ensures FiledLast(m, [], m)
  {}

  lemma {:induction false} StoredFilesLast(m: map<Uuid, Allocation>, allocs: seq<Allocation>)
    ensures FiledLast(m, allocs, Stored(m, allocs))
    decreases allocs
  {
    hide FiledAt;
    if allocs == [] {
      NothingFiled(m);
    } else {
      var n := |allocs| - 1;
      StoredFilesLast(m, allocs[..n]);
      assert allocs[..n] + [allocs[n]] == allocs;
      forall id ensures FiledAt(m, allocs, Stored(m, allocs), id) {
        OneMoreFiled(m, allocs[..n], Stored(m, allocs[..n]), allocs[n], id);
      }
    }
  }

  lemma {:induction false} StoredConcat(m: map<Uuid, Allocation>, xs: seq<Allocation>, ys: seq<Allocation>)
    ensures Stored(Stored(m, xs), ys) == Stored(m, xs + ys)
    decreases ys
  {
    if ys == [] {
      assert xs + ys == xs;
    } else {
      var k := |ys| - 1;
      StoredConcat(m, xs, ys[..k]);
      assert (xs + ys)[..|xs + ys| - 1] == xs + ys[..k];
    }
  }

  /** `evaluate`: every pending job is placed against the same nodes and what is made is
      stored; a pending job becomes running exactly when it, or a job listed before it, got
      an allocation in this evaluation. */
  method Evaluate(store: Store, strategy: Strategy, matches: Job -> Match)
    returns (made: seq<Allocation>, jobs: seq<Job>, nodes: seq<Node>, ghost perJob: seq<seq<Allocation>>)
    requires store.Valid()
    modifies store`jobs, store`allocations
    ensures ListsValues(old(store.jobs), jobs, JobKey) && ListsValues(store.nodes, nodes, NodeKey)
    ensures |perJob| == |jobs| && made == Flatten(perJob)
    ensures forall i :: 0 <= i < |jobs| && jobs[i].status == JobPending ==>
              JobPlaced(perJob[i], jobs[i], Ready(nodes), matches(jobs[i]), strategy)
    ensures FiledLast(old(store.allocations), made, store.allocations)
    ensures store.jobs.Keys == old(store.jobs).Keys && SettledUpTo(store.jobs, jobs, perJob, |jobs|)
  {
    hide Flatten, Keyed, Settled, AnyPlaced, GroupPlaced, Stored, FiledLast, Ready, ListsValues, SettledUpTo;
    jobs := store.ListJobs();
    nodes := store.ListNodes();
    made, perJob := [], [];
    NothingSettled(store.jobs, jobs);
    FlattenNothing();
    StoredNothing(store.allocations);
    for n := 0 to |jobs|
      invariant made == Flatten(perJob)
      invariant |perJob| == n && store.jobs.Keys == old(store.jobs).Keys
      invariant SettledUpTo(store.jobs, jobs, perJob, n)
      invariant store.allocations == Stored(old(store.allocations), made)
      invariant forall i :: 0 <= i < n && jobs[i].status == JobPending ==>
                  JobPlaced(perJob[i], jobs[i], Ready(nodes), matches(jobs[i]), strategy)
    {
      hide JobPlaced, SettledUpTo;
      var job := jobs[n];
      var allocs: seq<Allocation> := [];
      ghost var before := store.jobs;
      if job.status == JobPending {
        allocs := PlaceJob(store, job, nodes, matches(job), strategy, made);
        StoredConcat(old(store.allocations), made, allocs);
        made := made + allocs;
      }
      FlattenStep(perJob, allocs);
      SettledShape(before, jobs, perJob, n);
      SettleOne(before, jobs, perJob, allocs, store.jobs);
      perJob := perJob + [allocs];
    }
    SettledShape(store.jobs, jobs, perJob, |jobs|);
    StoredFilesLast(old(store.allocations), made);
  }

  lemma SettledShape(m: map<string, Job>, jobs: seq<Job>, perJob: seq<seq<Allocation>>, n: nat)
    requires SettledUpTo(m, jobs, perJob, n)
    ensures n <= |jobs| && |perJob| == n && forall i :: 0 <= i < |jobs| ==> jobs[i].id in m
  {}

  lemma NothingSettled(m: map<string, Job>, jobs: seq<Job>)
    requires ListsValues(m, jobs, JobKey)
    ensures SettledUpTo(m, jobs, [], 0)
    ensures forall i, j :: 0 <= i < j < |jobs| ==> jobs[i].id != jobs[j].id
  {
    forall i | 0 <= i < |jobs| ensures jobs[i].id in m && m[jobs[i].id] == jobs[i] {
      assert JobKey(jobs[i]) in m;
    }
    forall i, j | 0 <= i < j < |jobs| ensures jobs[i].id != jobs[j].id {
      assert JobKey(jobs[i]) != JobKey(jobs[j]);
    }
  }

  /** The loop body for a pending job, after `made` so far. */
  method PlaceJob(store: Store, job: Job, nodes: seq<Node>, matches: Match, strategy: Strategy, made: seq<Allocation>)
    returns (allocs: seq<Allocation>)
    modifies store`jobs, store`allocations
    ensures JobPlaced(allocs, job, Ready(nodes), matches, strategy)
    ensures store.allocations == Stored(old(store.allocations), allocs)
    ensures store.jobs ==
              if made + allocs != [] && job.id in old(store.jobs)
                  then old(store.jobs)[job.id := SetRunning(old(store.jobs)[job.id])]
              else old(store.jobs)
  {
    hide JobPlaced, Stored;
    allocs := EvaluateJob(job, nodes, matches, strategy);
    PutAll(store, allocs);
    if made + allocs != [] {
      var _ := store.UpdateJob(job.id, SetRunning);
    }
  }

  lemma StoredNothing(m: map<Uuid, Allocation>)
    ensures Stored(m, []) == m
  {}

  lemma FlattenStep(perJob: seq<seq<Allocation>>, allocs: seq<Allocation>)
    ensures Flatten(perJob + [allocs]) == Flatten(perJob) + allocs
  {
    assert (perJob + [allocs])[..|perJob|] == perJob;
  }

  method PutAll(store: Store, allocs: seq<Allocation>)
    modifies store`allocations
    ensures store.allocations == Stored(old(store.allocations), allocs)
  {
    for k := 0 to |allocs|
      invariant store.allocations == Stored(old(store.allocations), allocs[..k])
    {
      store.PutAllocation(allocs[k]);
      assert allocs[..k + 1][..k] == allocs[..k];
    }
    assert allocs[..|allocs|] == allocs;
  }
}

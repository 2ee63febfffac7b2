/** The node-local state store (src/domain/state_store.rs): four maps, updated in place
    through closures. Lists come out in no particular order, as hash maps give them. */
module StateStore {
  import opened Common
  import opened Domain

  /** The values of `m`, each key once, in some order. */
  ghost predicate ListsValues<K, V>(m: map<K, V>, vs: seq<V>, key: V -> K) {
    && (forall i :: 0 <= i < |vs| ==> key(vs[i]) in m && m[key(vs[i])] == vs[i])
    && (forall i, j :: 0 <= i < j < |vs| ==> key(vs[i]) != key(vs[j]))
    && (forall k :: k in m ==> m[k] in vs)
  }

  ghost predicate Keyed<K, V>(m: map<K, V>, key: V -> K) {
    forall k :: k in m ==> key(m[k]) == k
  }

  method Values<K(==), V>(m: map<K, V>, key: V -> K) returns (vs: seq<V>)
    requires Keyed(m, key)
    ensures ListsValues(m, vs, key)
  {
    var left := m.Keys;
    vs := [];
    while left != {}
      invariant left <= m.Keys
      invariant forall i :: 0 <= i < |vs| ==> key(vs[i]) in m && m[key(vs[i])] == vs[i] && key(vs[i]) !in left
      invariant forall i, j :: 0 <= i < j < |vs| ==> key(vs[i]) != key(vs[j])
      invariant forall k :: k in m && k !in left ==> m[k] in vs
      decreases left
    {
      var k :| k in left;
      left := left - {k};
      vs := vs + [m[k]];
    }
  }

  function JobKey(j: Job): string { j.id }
  function AllocationKey(a: Allocation): Uuid { a.id }
  function NodeKey(n: Node): string { n.id }
  function SourceKey(s: Source): Uuid { s.id }

  class Store {
    var jobs: map<string, Job>
    var allocations: map<Uuid, Allocation>
    var nodes: map<string, Node>
    var sources: map<Uuid, Source>

    /** Every record is filed under its own id. */
    ghost predicate Valid()
      reads this
    {
      Keyed(jobs, JobKey) && Keyed(allocations, AllocationKey) && Keyed(nodes, NodeKey) && Keyed(sources, SourceKey)
    }

    method PutJob(job: Job)
      modifies this`jobs
      ensures jobs == old(jobs)[job.id := job]
    {
      jobs := jobs[job.id := job];
    }

    method UpdateJob(id: string, f: Job -> Job) returns (r: Option<Job>)
      modifies this`jobs
      ensures jobs == if id in old(jobs) then old(jobs)[id := f(old(jobs)[id])] else old(jobs)
      ensures r == if id in old(jobs) then Some(f(old(jobs)[id])) else None
    {
      if id !in jobs {
        return None;
      }
      jobs := jobs[id := f(jobs[id])];
      r := Some(jobs[id]);
    }

    method PutAllocation(alloc: Allocation)
      modifies this`allocations
      ensures allocations == old(allocations)[alloc.id := alloc]
    {
      allocations := allocations[alloc.id := alloc];
    }

    method UpdateAllocation(id: Uuid, f: Allocation -> Allocation) returns (r: Option<Allocation>)
      modifies this`allocations
      ensures allocations == if id in old(allocations) then old(allocations)[id := f(old(allocations)[id])]
              else old(allocations)
      ensures r == if id in old(allocations) then Some(f(old(allocations)[id])) else None
    {
      if id !in allocations {
        return None;
      }
      allocations := allocations[id := f(allocations[id])];
      r := Some(allocations[id]);
    }

    method UpdateSource(id: Uuid, f: Source -> Source) returns (r: Option<Source>)
      modifies this`sources
      ensures sources == if id in old(sources) then old(sources)[id := f(old(sources)[id])] else old(sources)
      ensures r == if id in old(sources) then Some(f(old(sources)[id])) else None
    {
      if id !in sources {
        return None;
      }
      sources := sources[id := f(sources[id])];
      r := Some(sources[id]);
    }

    method ListJobs() returns (js: seq<Job>)
      requires Valid()
      ensures ListsValues(jobs, js, JobKey)
    {
      js := Values(jobs, JobKey);
    }

    method ListNodes() returns (ns: seq<Node>)
      requires Valid()
      ensures ListsValues(nodes, ns, NodeKey)
    {
      ns := Values(nodes, NodeKey);
    }

    method ListSources() returns (ss: seq<Source>)
      requires Keyed(sources, SourceKey)
      ensures ListsValues(sources, ss, SourceKey)
    {
      ss := Values(sources, SourceKey);
    }

    method ListAllocationsForJob(jobId: string) returns (allocs: seq<Allocation>)
      requires Valid()
      ensures ListsValues(OfJob(allocations, jobId), allocs, AllocationKey)
    {
      allocs := Values(OfJob(allocations, jobId), AllocationKey);
    }
  }

  function OfJob(m: map<Uuid, Allocation>, jobId: string): map<Uuid, Allocation> {
    map k | k in m && m[k].jobId == jobId :: m[k]
  }
}

/** The dispatcher's process memory, updated in place, against the steps of
    `Dispatcher`. */
module DispatcherMemory {
  import opened Dispatcher

  datatype Candidate = Candidate(worker: nat, serves: bool, depth: nat)

  predicate Free(slots: map<nat, nat>, c: Candidate) {
    c.serves && Slot(slots, c.worker) < c.depth
  }

  /** `pick_job_worker`: the first of the least loaded workers that can take
      the job, in registry order. */
  method PickJobWorker(workers: seq<Candidate>, slots: map<nat, nat>) returns (picked: int)
    ensures picked == -1 <==> forall c | c in workers :: !Free(slots, c)
    ensures picked != -1 ==>
      && 0 <= picked < |workers| && Free(slots, workers[picked])
      && (forall i | 0 <= i < |workers| && Free(slots, workers[i]) ::
            Slot(slots, workers[picked].worker) <= Slot(slots, workers[i].worker))
      && (forall i | 0 <= i < picked && Free(slots, workers[i]) ::
            Slot(slots, workers[picked].worker) < Slot(slots, workers[i].worker))
  {
    picked := -1;
    for n := 0 to |workers|
      invariant -1 <= picked < n
      invariant picked == -1 <==> forall i | 0 <= i < n :: !Free(slots, workers[i])
      invariant picked != -1 ==>
        && Free(slots, workers[picked])
        && (forall i | 0 <= i < n && Free(slots, workers[i]) ::
              Slot(slots, workers[picked].worker) <= Slot(slots, workers[i].worker))
        && (forall i | 0 <= i < picked && Free(slots, workers[i]) ::
              Slot(slots, workers[picked].worker) < Slot(slots, workers[i].worker))
    {
      if Free(slots, workers[n])
         && (picked == -1 || Slot(slots, workers[n].worker) < Slot(slots, workers[picked].worker)) {
        picked := n;
      }
    }
  }

  /** The worker's entries among those already visited. */
  function Visited(before: map<nat, Entry>, w: nat, left: set<nat>): set<nat> {
    Held(before, w) - left
  }

  lemma VisitOne(before: map<nat, Entry>, w: nat, left: set<nat>, j: nat)
    requires j in left && j in before
    ensures before[j].worker != w ==> Visited(before, w, left - {j}) == Visited(before, w, left)
    ensures before[j].worker == w ==>
      && Visited(before, w, left - {j}) == Visited(before, w, left) + {j}
      && before - Visited(before, w, left - {j}) == (before - Visited(before, w, left)) - {j}
      && multiset(Visited(before, w, left - {j})) == multiset(Visited(before, w, left)) + multiset{j}
  {
    if before[j].worker == w {
      assert Visited(before, w, left - {j}) == Visited(before, w, left) + {j};
    } else {
      assert Visited(before, w, left - {j}) == Visited(before, w, left);
    }
  }

  lemma NoneVisited(before: map<nat, Entry>, w: nat)
    ensures Visited(before, w, before.Keys) == {} && before - {} == before
  {
  }

  lemma AllVisited(before: map<nat, Entry>, w: nat)
    ensures Visited(before, w, {}) == Held(before, w)
  {
  }

  class Memory {
    var inflight: map<nat, Entry>
    var slots: map<nat, nat>
    var lost: seq<nat>

    constructor ()
      ensures inflight == map[] && slots == map[] && lost == []
    {
      inflight, slots, lost := map[], map[], [];
    }

    /** What these fields are in a dispatcher state. */
    ghost predicate Is(s: State)
      reads this
    {
      inflight == s.inflight && slots == s.slots && multiset(lost) == s.lost
    }

    method ReleaseJobSlot(w: nat)
      modifies this`slots
      ensures slots == ReleaseSlot(old(slots), w)
    {
      slots := slots[w := if w in slots && slots[w] > 0 then slots[w] - 1 else 0];
    }

    /** `clear_if_current` and `_drop_early_entry`. */
    method ClearIfCurrent(j: nat, current: Entry, ghost s: State)
      requires Is(s)
      modifies this
      ensures Is(Release(s, j, current))
    {
      if j !in inflight || inflight[j] != current {
        return;
      }
      inflight := inflight - {j};
      ReleaseJobSlot(current.worker);
    }

    /** `on_worker_lost`: one pass over a snapshot of the entries. */
    method OnWorkerLost(w: nat, ghost s: State)
      requires Is(s)
      modifies this`inflight, this`lost
      ensures Is(MovedToLost(s, w))
    {
      var snapshot := inflight.Keys;
      NoneVisited(s.inflight, w);
      while snapshot != {}
        invariant snapshot <= s.inflight.Keys
        invariant inflight == s.inflight - Visited(s.inflight, w, snapshot)
        invariant multiset(lost) == s.lost + multiset(Visited(s.inflight, w, snapshot))
        decreases |snapshot|
      {
        var j :| j in snapshot;
        VisitOne(s.inflight, w, snapshot, j);
        snapshot := snapshot - {j};
        if inflight[j].worker == w {
          inflight := inflight - {j};
          lost := lost + [j];
        }
      }
      AllVisited(s.inflight, w);
    }
  }
}

/** The bounded breadth-first walk over a job's descendants: pending and result
    arrays, a depth cap, a node cap, a truncation flag and a lower bound on what
    stays hidden.  The stored graph may contain cycles. */
module Lineage {
  import opened Wrappers

  const MAX_DEPTH: nat := 100
  const MAX_NODES: nat := 600

  datatype Job = Job(owner: nat, created: int, source: Option<nat>)

  datatype Asset = Asset(owner: nat, job: Option<nat>, thumbnail: bool)

  datatype Tables = Tables(jobs: map<nat, Job>, assets: map<nat, Asset>)

  datatype Node = Node(job: nat, depth: nat)

  datatype Walk = Walk(pending: seq<Node>, result: seq<Node>, truncated: bool, hidden: nat)

  // ----- the graph -----

  /** An asset of this user that the job produced and that is no thumbnail. */
  predicate Output(t: Tables, user: nat, asset: nat, job: nat) {
    asset in t.assets && t.assets[asset] == Asset(user, Some(job), false)
  }

  predicate Eligible(t: Tables, user: nat, job: nat) {
    job in t.jobs && t.jobs[job].owner == user && exists a | a in t.assets :: Output(t, user, a, job)
  }

  predicate Child(t: Tables, user: nat, parent: nat, child: nat) {
    && Eligible(t, user, child)
    && t.jobs[child].source.Some?
    && Output(t, user, t.jobs[child].source.value, parent)
  }

  function Children(t: Tables, user: nat, parent: nat): set<nat> {
    set c | c in t.jobs && Child(t, user, parent, c)
  }

  /** A path in the graph, from the root on. */
  predicate Path(t: Tables, user: nat, root: nat, p: seq<nat>) {
    && p != [] && p[0] == root
    && forall i | 0 < i < |p| :: Child(t, user, p[i - 1], p[i])
  }

  predicate PathTo(t: Tables, user: nat, root: nat, p: seq<nat>, job: nat) {
    Path(t, user, root, p) && p[|p| - 1] == job
  }

  ghost predicate Reaches(t: Tables, user: nat, root: nat, job: nat) {
    exists p :: PathTo(t, user, root, p, job)
  }

  /** `depth` is the length of a shortest path to the job. */
  ghost predicate Distance(t: Tables, user: nat, root: nat, job: nat, depth: nat) {
    && (exists p :: PathTo(t, user, root, p, job) && |p| == depth + 1)
    && (forall p :: PathTo(t, user, root, p, job) ==> |p| >= depth + 1)
  }

  lemma RootDistance(t: Tables, user: nat, root: nat)
    ensures Distance(t, user, root, root, 0)
  {
    assert PathTo(t, user, root, [root], root);
  }

  lemma OneStepFurther(t: Tables, user: nat, root: nat, p: seq<nat>, parent: nat, child: nat)
    requires PathTo(t, user, root, p, parent) && Child(t, user, parent, child)
    ensures PathTo(t, user, root, p + [child], child)
  {
  }

  /** Each job has one source, so every path to it comes through one parent. */
  lemma ThroughTheParent(t: Tables, user: nat, root: nat, p: seq<nat>, parent: nat, child: nat)
    requires PathTo(t, user, root, p, child) && Child(t, user, parent, child) && child != root
    ensures |p| > 1 && PathTo(t, user, root, p[..|p| - 1], parent)
  {
    assert Child(t, user, p[|p| - 2], p[|p| - 1]);
  }

  lemma ChildDistance(t: Tables, user: nat, root: nat, parent: nat, depth: nat, child: nat)
    requires Distance(t, user, root, parent, depth) && Child(t, user, parent, child) && child != root
    ensures Distance(t, user, root, child, depth + 1)
  {
    var p :| PathTo(t, user, root, p, parent) && |p| == depth + 1;
    OneStepFurther(t, user, root, p, parent, child);
    forall q | PathTo(t, user, root, q, child)
      ensures |q| >= depth + 2
    {
      ThroughTheParent(t, user, root, q, parent, child);
      assert PathTo(t, user, root, q[..|q| - 1], parent);
    }
  }

  // ----- children in (created_at, id) order -----

  predicate Before(t: Tables, a: nat, b: nat)
    requires a in t.jobs && b in t.jobs
  {
    t.jobs[a].created < t.jobs[b].created || (t.jobs[a].created == t.jobs[b].created && a <= b)
  }

  predicate Earliest(t: Tables, s: set<nat>, a: nat)
    requires s <= t.jobs.Keys
  {
    a in s && forall b | b in s :: Before(t, a, b)
  }

  lemma {:induction false} SomeEarliest(t: Tables, s: set<nat>)
    requires s <= t.jobs.Keys && s != {}
    ensures exists a | a in s :: Earliest(t, s, a)
  {
    var b :| b in s;
    if s == {b} {
      assert Earliest(t, s, b);
    } else {
      SomeEarliest(t, s - {b});
      var a :| a in s - {b} && Earliest(t, s - {b}, a);
      assert s == s - {b} + {b};
      assert Earliest(t, s, if Before(t, a, b) then a else b);
    }
  }

  function Elements(s: seq<nat>): set<nat> {
    set x | x in s
  }

  predicate Distinct(s: seq<nat>) {
    forall i, j | 0 <= i < j < |s| :: s[i] != s[j]
  }

  function Ordered(t: Tables, s: set<nat>): seq<nat>
    requires s <= t.jobs.Keys
  {
    if s == {} then []
    else
      SomeEarliest(t, s);
      var a :| a in s && Earliest(t, s, a);
      [a] + Ordered(t, s - {a})
  }

  predicate InOrder(t: Tables, s: seq<nat>) {
    forall i, j | 0 <= i < j < |s| :: s[i] in t.jobs && s[j] in t.jobs && Before(t, s[i], s[j])
  }

  /** `Ordered` lists exactly the given jobs, each once, by creation time and
      then by id. */
  lemma {:induction false} OrderedListsAll(t: Tables, s: set<nat>)
    requires s <= t.jobs.Keys
    ensures forall x :: x in Ordered(t, s) <==> x in s
    ensures Distinct(Ordered(t, s)) && InOrder(t, Ordered(t, s))
  {
    if s != {} {
      SomeEarliest(t, s);
      var a :| a in s && Earliest(t, s, a);
      OrderedListsAll(t, s - {a});
      assert Ordered(t, s) == [a] + Ordered(t, s - {a});
    }
  }

  // ----- one step of the recursion -----

  function Jobs(nodes: seq<Node>): (r: seq<nat>)
    ensures |r| == |nodes| && forall i | 0 <= i < |r| :: r[i] == nodes[i].job
  {
    seq(|nodes|, i requires 0 <= i < |nodes| => nodes[i].job)
  }

  function At(jobs: seq<nat>, depth: nat): (r: seq<Node>)
    ensures |r| == |jobs| && forall i | 0 <= i < |r| :: r[i] == Node(jobs[i], depth)
  {
    seq(|jobs|, i requires 0 <= i < |jobs| => Node(jobs[i], depth))
  }

  function Min(a: nat, b: nat): nat { if a < b then a else b }

  function Capacity(w: Walk): nat
    requires w.pending != []
  {
    if w.pending[0].depth < MAX_DEPTH && |w.result| + |w.pending| < MAX_NODES
    then MAX_NODES - |w.result| - |w.pending|
    else 0
  }

  /** Every job the walk has met. */
  function All(w: Walk): seq<Node> { w.result + w.pending }

  function UnseenChildren(t: Tables, user: nat, w: Walk): set<nat>
    requires w.pending != []
  {
    Children(t, user, w.pending[0].job) - Elements(Jobs(All(w)))
  }

  /** The unseen children, earliest first, one more than there is room for. */
  function Candidates(t: Tables, user: nat, w: Walk): seq<nat>
    requires w.pending != []
  {
    var unseen := Ordered(t, UnseenChildren(t, user, w));
    unseen[..Min(|unseen|, Capacity(w) + 1)]
  }

  function Accepted(t: Tables, user: nat, w: Walk): seq<nat>
    requires w.pending != []
  {
    var candidates := Candidates(t, user, w);
    candidates[..Min(|candidates|, Capacity(w))]
  }

  function Step(t: Tables, user: nat, w: Walk): Walk
    requires w.pending != []
  {
    var current := w.pending[0];
    var over := |Candidates(t, user, w)| > Capacity(w);
    Walk(w.pending[1..] + At(Accepted(t, user, w), current.depth + 1),
         w.result + [current],
         w.truncated || over,
         w.hidden + if over then 1 else 0)
  }

  // ----- what the walk keeps -----

  /** The walk only appends to the jobs it has seen. */
  lemma StepAppends(t: Tables, user: nat, w: Walk)
    requires w.pending != []
    ensures All(Step(t, user, w)) == All(w) + At(Accepted(t, user, w), w.pending[0].depth + 1)
  {
    Shift(w.result, w.pending, At(Accepted(t, user, w), w.pending[0].depth + 1));
  }

  lemma Shift(result: seq<Node>, pending: seq<Node>, added: seq<Node>)
    requires pending != []
    ensures (result + [pending[0]]) + (pending[1..] + added) == (result + pending) + added
  {
  }

  lemma TakeSome(s: seq<nat>, n: nat)
    requires Distinct(s)
    ensures Distinct(s[..Min(|s|, n)]) && forall x | x in s[..Min(|s|, n)] :: x in s
    ensures |s| <= n ==> s[..Min(|s|, n)] == s
  {
  }

  lemma CandidatesAreUnseen(t: Tables, user: nat, w: Walk)
    requires w.pending != []
    ensures Distinct(Candidates(t, user, w))
    ensures forall c | c in Candidates(t, user, w) :: c in UnseenChildren(t, user, w)
    ensures |Candidates(t, user, w)| <= Capacity(w) ==>
              forall c | c in UnseenChildren(t, user, w) :: c in Candidates(t, user, w)
  {
    OrderedListsAll(t, UnseenChildren(t, user, w));
    TakeSome(Ordered(t, UnseenChildren(t, user, w)), Capacity(w) + 1);
  }

  ghost predicate NodeOk(t: Tables, user: nat, root: nat, n: Node) {
    && Eligible(t, user, n.job) && n.depth <= MAX_DEPTH
    && Distance(t, user, root, n.job, n.depth)
  }

  /** A child of the i-th job may be missing only for one of two reasons: the
      job is as deep as the walk goes, or the node budget is spent on jobs that
      are no further away than that child. */
  predicate MayMiss(all: seq<Node>, i: nat)
    requires i < |all|
  {
    all[i].depth == MAX_DEPTH
    || (|all| == MAX_NODES && forall m | 0 <= m < |all| :: all[m].depth <= all[i].depth + 1)
  }

  predicate Expanded(t: Tables, user: nat, all: seq<Node>, i: nat, truncated: bool)
    requires i < |all|
  {
    (exists c | c in t.jobs :: Child(t, user, all[i].job, c) && c !in Jobs(all))
    ==> truncated && MayMiss(all, i)
  }

  predicate Shape(root: nat, all: seq<Node>, k: nat) {
    && 0 < |all| <= MAX_NODES && all[0] == Node(root, 0) && k <= |all|
    && Distinct(Jobs(all))
    && (forall i, j | 0 <= i < j < |all| :: all[i].depth <= all[j].depth)
    && (forall i | k <= i < |all| :: all[i].depth <= all[k].depth + 1)
  }

  ghost predicate Inv(t: Tables, user: nat, root: nat, w: Walk) {
    var all := All(w);
    && Shape(root, all, |w.result|)
    && (forall i | 0 <= i < |all| :: NodeOk(t, user, root, all[i]))
    && (forall i | 0 <= i < |w.result| :: Expanded(t, user, all, i, w.truncated))
  }

  lemma ShapeKept(root: nat, all: seq<Node>, k: nat, added: seq<nat>)
    requires Shape(root, all, k) && k < |all|
    requires Distinct(added) && forall c | c in added :: c !in Jobs(all)
    requires |all| + |added| <= MAX_NODES
    ensures Shape(root, all + At(added, all[k].depth + 1), k + 1)
  {
    var next := all + At(added, all[k].depth + 1);
    forall i, j | 0 <= i < j < |next|
      ensures Jobs(next)[i] != Jobs(next)[j]
    {
      if i < |all| <= j {
        assert Jobs(all)[i] == next[i].job && added[j - |all|] in added;
      } else if i < |all| {
        assert Jobs(all)[i] == next[i].job && Jobs(all)[j] == next[j].job;
      } else {
        assert added[i - |all|] != added[j - |all|];
      }
    }
  }

  lemma Overflow(t: Tables, user: nat, w: Walk)
    requires w.pending != []
    ensures |Accepted(t, user, w)| <= Capacity(w)
    ensures |Candidates(t, user, w)| <= Capacity(w) ==> Accepted(t, user, w) == Candidates(t, user, w)
    ensures |Candidates(t, user, w)| > Capacity(w) ==>
              && |Accepted(t, user, w)| == Capacity(w)
              && Candidates(t, user, w) == Accepted(t, user, w) + [Candidates(t, user, w)[Capacity(w)]]
  {
  }

  lemma NodeKept(t: Tables, user: nat, root: nat, w: Walk, c: nat)
    requires w.pending != [] && Inv(t, user, root, w) && c in Accepted(t, user, w)
    ensures NodeOk(t, user, root, Node(c, w.pending[0].depth + 1))
  {
    var all := All(w);
    assert all[|w.result|] == w.pending[0];
    CandidatesAreUnseen(t, user, w);
    Overflow(t, user, w);
    assert c in UnseenChildren(t, user, w);
    assert Jobs(all)[0] == root;
    ChildDistance(t, user, root, w.pending[0].job, w.pending[0].depth, c);
  }

  lemma ExpandedKept(t: Tables, user: nat, root: nat, w: Walk, i: nat)
    requires w.pending != [] && Inv(t, user, root, w) && i < |w.result|
    ensures Expanded(t, user, All(Step(t, user, w)), i, w.truncated)
  {
    var all, next := All(w), All(Step(t, user, w));
    StepAppends(t, user, w);
    Overflow(t, user, w);
    assert Expanded(t, user, all, i, w.truncated);
    forall c | c in Jobs(all)
      ensures c in Jobs(next)
    {
      var m :| 0 <= m < |all| && Jobs(all)[m] == c;
      assert Jobs(next)[m] == c;
    }
    if |all| == MAX_NODES {
      assert next == all;
    }
  }

  lemma NoneMissing(t: Tables, user: nat, w: Walk, c: nat)
    requires w.pending != [] && |Candidates(t, user, w)| <= Capacity(w)
    requires Child(t, user, w.pending[0].job, c)
    ensures c in Jobs(All(Step(t, user, w)))
  {
    StepAppends(t, user, w);
    Overflow(t, user, w);
    CandidatesAreUnseen(t, user, w);
    AppendedJobs(All(w), Accepted(t, user, w), w.pending[0].depth + 1, c);
    assert c !in Jobs(All(w)) ==> c in UnseenChildren(t, user, w);
  }

  lemma OverflowIsAllowed(t: Tables, user: nat, root: nat, w: Walk)
    requires w.pending != [] && Inv(t, user, root, w) && |Candidates(t, user, w)| > Capacity(w)
    requires Shape(root, All(Step(t, user, w)), |w.result| + 1)
    ensures MayMiss(All(Step(t, user, w)), |w.result|)
  {
    StepAppends(t, user, w);
    Overflow(t, user, w);
    var all := All(w);
    assert all[|w.result|] == w.pending[0];
    assert NodeOk(t, user, root, all[|w.result|]);
  }

  lemma CurrentExpanded(t: Tables, user: nat, root: nat, w: Walk)
    requires w.pending != [] && Inv(t, user, root, w)
    requires Shape(root, All(Step(t, user, w)), |w.result| + 1)
    ensures Expanded(t, user, All(Step(t, user, w)), |w.result|, Step(t, user, w).truncated)
  {
    assert All(Step(t, user, w))[|w.result|] == w.pending[0];
    if |Candidates(t, user, w)| <= Capacity(w) {
      forall c | c in t.jobs && Child(t, user, w.pending[0].job, c)
        ensures c in Jobs(All(Step(t, user, w)))
      {
        NoneMissing(t, user, w, c);
      }
    } else {
      OverflowIsAllowed(t, user, root, w);
    }
  }

  lemma AppendedJobs(all: seq<Node>, added: seq<nat>, depth: nat, c: nat)
    ensures c in Jobs(all + At(added, depth)) <==> c in Jobs(all) || c in added
  {
    var next := all + At(added, depth);
    if c in Jobs(all) {
      var m :| 0 <= m < |all| && Jobs(all)[m] == c;
      assert Jobs(next)[m] == c;
    }
    if c in added {
      var m :| 0 <= m < |added| && added[m] == c;
      assert Jobs(next)[|all| + m] == c;
    }
    if c in Jobs(next) {
      var m :| 0 <= m < |next| && Jobs(next)[m] == c;
      assert if m < |all| then Jobs(all)[m] == c else added[m - |all|] == c;
    }
  }

  lemma StepKeepsShape(t: Tables, user: nat, root: nat, w: Walk)
    requires w.pending != [] && Inv(t, user, root, w)
    ensures Shape(root, All(Step(t, user, w)), |w.result| + 1)
  {
    StepAppends(t, user, w);
    AcceptedAreNew(t, user, w);
    assert All(w)[|w.result|] == w.pending[0];
    ShapeKept(root, All(w), |w.result|, Accepted(t, user, w));
  }

  lemma AcceptedAreNew(t: Tables, user: nat, w: Walk)
    requires w.pending != [] && |All(w)| <= MAX_NODES
    ensures Distinct(Accepted(t, user, w)) && |All(w)| + |Accepted(t, user, w)| <= MAX_NODES
    ensures forall c | c in Accepted(t, user, w) :: c !in Jobs(All(w))
  {
    Overflow(t, user, w);
    CandidatesAreUnseen(t, user, w);
    TakeSome(Candidates(t, user, w), Capacity(w));
    forall c | c in Accepted(t, user, w)
      ensures c !in Jobs(All(w))
    {
      assert c in UnseenChildren(t, user, w);
    }
  }

  lemma WhichNode(all: seq<Node>, added: seq<nat>, depth: nat, i: nat)
    requires i < |all| + |added|
    ensures (all + At(added, depth))[i] == if i < |all| then all[i] else Node(added[i - |all|], depth)
  {
  }

  lemma StepKeepsNodes(t: Tables, user: nat, root: nat, w: Walk, i: nat)
    requires w.pending != [] && Inv(t, user, root, w) && i < |All(Step(t, user, w))|
    ensures NodeOk(t, user, root, All(Step(t, user, w))[i])
  {
    var added := Accepted(t, user, w);
    StepAppends(t, user, w);
    WhichNode(All(w), added, w.pending[0].depth + 1, i);
    if i >= |All(w)| {
      assert added[i - |All(w)|] in added;
      NodeKept(t, user, root, w, added[i - |All(w)|]);
    }
  }

  lemma StepKeepsExpanded(t: Tables, user: nat, root: nat, w: Walk, i: nat)
    requires w.pending != [] && Inv(t, user, root, w) && i <= |w.result|
    requires Shape(root, All(Step(t, user, w)), |w.result| + 1)
    ensures Expanded(t, user, All(Step(t, user, w)), i, Step(t, user, w).truncated)
  {
    if i < |w.result| {
      ExpandedKept(t, user, root, w, i);
    } else {
      CurrentExpanded(t, user, root, w);
    }
  }

  lemma StepKeepsInv(t: Tables, user: nat, root: nat, w: Walk)
    requires w.pending != [] && Inv(t, user, root, w)
    ensures Inv(t, user, root, Step(t, user, w))
  {
    var next := Step(t, user, w);
    StepKeepsShape(t, user, root, w);
    forall i: nat | i < |All(next)|
      ensures NodeOk(t, user, root, All(next)[i])
    {
      StepKeepsNodes(t, user, root, w, i);
    }
    forall i: nat | i < |next.result|
      ensures Expanded(t, user, All(next), i, next.truncated)
    {
      StepKeepsExpanded(t, user, root, w, i);
    }
  }

  // ----- the order of the answer -----

  /** The i-th job, unless it is the first, was met through one before the k-th. */
  predicate MetThrough(t: Tables, user: nat, all: seq<Node>, k: nat, i: nat)
    requires i < |all|
  {
    i > 0 ==> exists m | 0 <= m < k && m < |all| :: Child(t, user, all[m].job, all[i].job)
  }

  /** Children of an earlier job come earlier, and children of one job by
      creation time and then by id. */
  predicate Queued(t: Tables, user: nat, all: seq<Node>, m: nat, n: nat, i: nat, j: nat)
    requires m < |all| && n < |all| && i < j < |all|
  {
    0 < i && Child(t, user, all[m].job, all[i].job) && Child(t, user, all[n].job, all[j].job) ==>
      m < n || (m == n && Before(t, all[i].job, all[j].job))
  }

  /** No child was left out for one created after it. */
  predicate EarliestKept(t: Tables, user: nat, all: seq<Node>, m: nat, i: nat, c: nat)
    requires m < |all| && i < |all|
  {
    0 < i && Child(t, user, all[m].job, all[i].job) && Child(t, user, all[m].job, c) && c !in Jobs(all) ==>
      Before(t, all[i].job, c)
  }

  ghost predicate OrderInv(t: Tables, user: nat, w: Walk) {
    var all, k := All(w), |w.result|;
    && (forall i | 0 <= i < |all| :: MetThrough(t, user, all, k, i))
    && (forall m, n, i, j | 0 <= m < |all| && 0 <= n < |all| && 0 <= i < j < |all| :: Queued(t, user, all, m, n, i, j))
    && (forall m, i, c | 0 <= m < k && 0 <= i < |all| :: EarliestKept(t, user, all, m, i, c))
  }

  lemma SameParent(t: Tables, user: nat, parent: nat, other: nat, child: nat)
    requires Child(t, user, parent, child) && Child(t, user, other, child)
    ensures parent == other
  {
  }

  lemma AcceptedInOrder(t: Tables, user: nat, w: Walk)
    requires w.pending != []
    ensures InOrder(t, Accepted(t, user, w))
    ensures forall a, c | a in Accepted(t, user, w) && c in UnseenChildren(t, user, w) && c !in Accepted(t, user, w) ::
      a in t.jobs && c in t.jobs && Before(t, a, c)
  {
    var unseen := Ordered(t, UnseenChildren(t, user, w));
    OrderedListsAll(t, UnseenChildren(t, user, w));
    var n := |Accepted(t, user, w)|;
    assert Accepted(t, user, w) == unseen[..n];
    forall a, c | a in Accepted(t, user, w) && c in UnseenChildren(t, user, w) && c !in Accepted(t, user, w)
      ensures a in t.jobs && c in t.jobs && Before(t, a, c)
    {
      var i :| 0 <= i < n && unseen[i] == a;
      var j :| 0 <= j < |unseen| && unseen[j] == c;
      assert j >= n;
    }
  }

  lemma AcceptedAreChildren(t: Tables, user: nat, w: Walk, c: nat)
    requires w.pending != [] && c in Accepted(t, user, w)
    ensures Child(t, user, w.pending[0].job, c) && c !in Jobs(All(w))
  {
    OrderedListsAll(t, UnseenChildren(t, user, w));
    assert c in Ordered(t, UnseenChildren(t, user, w));
  }

  lemma StepKeepsMet(t: Tables, user: nat, root: nat, w: Walk, i: nat)
    requires w.pending != [] && Inv(t, user, root, w) && OrderInv(t, user, w) && i < |All(Step(t, user, w))|
    ensures MetThrough(t, user, All(Step(t, user, w)), |w.result| + 1, i)
  {
    var all, next, k, added := All(w), All(Step(t, user, w)), |w.result|, Accepted(t, user, w);
    StepAppends(t, user, w);
    WhichNode(all, added, w.pending[0].depth + 1, i);
    assert all[k] == w.pending[0] && next[k] == all[k];
    if i < |all| {
      assert MetThrough(t, user, all, k, i);
      if i > 0 {
        var m :| 0 <= m < k && m < |all| && Child(t, user, all[m].job, all[i].job);
        assert next[m] == all[m];
      }
    } else {
      AcceptedAreChildren(t, user, w, added[i - |all|]);
    }
  }

  /** The only parent a new job has in the walk is the current job. */
  lemma ItsOnlyParent(t: Tables, user: nat, root: nat, w: Walk, m: nat, c: nat)
    requires w.pending != [] && Inv(t, user, root, w) && c in Accepted(t, user, w)
    requires Inv(t, user, root, Step(t, user, w))
    requires m < |All(Step(t, user, w))| && Child(t, user, All(Step(t, user, w))[m].job, c)
    ensures m == |w.result|
  {
    var next, k := All(Step(t, user, w)), |w.result|;
    StepAppends(t, user, w);
    AcceptedAreChildren(t, user, w, c);
    assert next[k] == w.pending[0];
    assert Jobs(next)[m] == next[m].job && Jobs(next)[k] == next[k].job;
    SameParent(t, user, next[k].job, next[m].job, c);
  }

  lemma StepKeepsQueued(t: Tables, user: nat, root: nat, w: Walk, m: nat, n: nat, i: nat, j: nat)
    requires w.pending != [] && Inv(t, user, root, w) && OrderInv(t, user, w)
    requires Inv(t, user, root, Step(t, user, w))
    requires var next := All(Step(t, user, w)); m < |next| && n < |next| && i < j < |next|
    ensures Queued(t, user, All(Step(t, user, w)), m, n, i, j)
  {
    var all, next, k, added := All(w), All(Step(t, user, w)), |w.result|, Accepted(t, user, w);
    StepAppends(t, user, w);
    WhichNode(all, added, w.pending[0].depth + 1, i);
    WhichNode(all, added, w.pending[0].depth + 1, j);
    if 0 < i && Child(t, user, next[m].job, next[i].job) && Child(t, user, next[n].job, next[j].job) {
      if j < |all| {
        ParentIsOld(t, user, root, w, m, i);
        ParentIsOld(t, user, root, w, n, j);
        assert Queued(t, user, all, m, n, i, j);
      } else {
        ItsOnlyParent(t, user, root, w, n, next[j].job);
        if i < |all| {
          ParentIsOld(t, user, root, w, m, i);
        } else {
          ItsOnlyParent(t, user, root, w, m, next[i].job);
          AcceptedInOrder(t, user, w);
          assert added[i - |all|] == next[i].job && added[j - |all|] == next[j].job;
        }
      }
    }
  }

  /** The parent through which an old job was met is an expanded one. */
  lemma ParentIsOld(t: Tables, user: nat, root: nat, w: Walk, m: nat, i: nat)
    requires w.pending != [] && Inv(t, user, root, w) && OrderInv(t, user, w)
    requires Inv(t, user, root, Step(t, user, w))
    requires 0 < i < |All(w)| && m < |All(Step(t, user, w))|
    requires Child(t, user, All(Step(t, user, w))[m].job, All(w)[i].job)
    ensures m < |w.result| && All(Step(t, user, w))[m] == All(w)[m]
  {
    var all, next := All(w), All(Step(t, user, w));
    StepAppends(t, user, w);
    assert MetThrough(t, user, all, |w.result|, i);
    var p :| 0 <= p < |w.result| && p < |all| && Child(t, user, all[p].job, all[i].job);
    assert next[p] == all[p];
    assert Jobs(next)[m] == next[m].job && Jobs(next)[p] == next[p].job;
    SameParent(t, user, next[p].job, next[m].job, all[i].job);
  }

  lemma StepKeepsEarliest(t: Tables, user: nat, root: nat, w: Walk, m: nat, i: nat, c: nat)
    requires w.pending != [] && Inv(t, user, root, w) && OrderInv(t, user, w)
    requires Inv(t, user, root, Step(t, user, w))
    requires m < |w.result| + 1 && i < |All(Step(t, user, w))|
    ensures m < |All(Step(t, user, w))| && EarliestKept(t, user, All(Step(t, user, w)), m, i, c)
  {
    var all, next, k, added := All(w), All(Step(t, user, w)), |w.result|, Accepted(t, user, w);
    StepAppends(t, user, w);
    WhichNode(all, added, w.pending[0].depth + 1, i);
    AppendedJobs(all, added, w.pending[0].depth + 1, c);
    if 0 < i && Child(t, user, next[m].job, next[i].job) && Child(t, user, next[m].job, c) && c !in Jobs(next) {
      if i < |all| {
        ParentIsOld(t, user, root, w, m, i);
        assert EarliestKept(t, user, all, m, i, c);
      } else {
        ItsOnlyParent(t, user, root, w, m, next[i].job);
        assert next[k] == w.pending[0];
        AcceptedInOrder(t, user, w);
        assert c in UnseenChildren(t, user, w);
      }
    }
  }

  lemma StepKeepsOrder(t: Tables, user: nat, root: nat, w: Walk)
    requires w.pending != [] && Inv(t, user, root, w) && OrderInv(t, user, w)
    requires Inv(t, user, root, Step(t, user, w))
    ensures OrderInv(t, user, Step(t, user, w))
  {
    var next, k := All(Step(t, user, w)), |w.result| + 1;
    forall i: nat | i < |next|
      ensures MetThrough(t, user, next, k, i)
    {
      StepKeepsMet(t, user, root, w, i);
    }
    forall m: nat, n: nat, i: nat, j: nat | m < |next| && n < |next| && i < j < |next|
      ensures Queued(t, user, next, m, n, i, j)
    {
      StepKeepsQueued(t, user, root, w, m, n, i, j);
    }
    StepAppends(t, user, w);
    forall m: nat, i: nat, c: nat | m < k && i < |next|
      ensures EarliestKept(t, user, next, m, i, c)
    {
      StepKeepsEarliest(t, user, root, w, m, i, c);
    }
  }

  // ----- the hidden count -----

  predicate HasOmitted(t: Tables, user: nat, all: seq<Node>, i: nat)
    requires i < |all|
  {
    exists c | c in t.jobs :: Child(t, user, all[i].job, c) && c !in Jobs(all)
  }

  /** How many of the first `k` jobs have a child that is left out. */
  function Overflows(t: Tables, user: nat, all: seq<Node>, k: nat): nat
    requires k <= |all|
  {
    if k == 0 then 0
    else Overflows(t, user, all, k - 1) + if HasOmitted(t, user, all, k - 1) then 1 else 0
  }

  /** What an expanded job's step left out stays out, and nothing else of its
      does. */
  lemma OmissionStays(t: Tables, user: nat, root: nat, w: Walk, i: nat)
    requires w.pending != [] && Inv(t, user, root, w) && i < |w.result|
    ensures i < |All(Step(t, user, w))|
    ensures HasOmitted(t, user, All(Step(t, user, w)), i) <==> HasOmitted(t, user, All(w), i)
  {
    var all, next := All(w), All(Step(t, user, w));
    StepAppends(t, user, w);
    assert next[i] == all[i] == w.result[i];
    if HasOmitted(t, user, all, i) {
      var c :| c in t.jobs && Child(t, user, all[i].job, c) && c !in Jobs(all);
      assert LeftBehind(t, user, w, c);
      StaysBehind(t, user, root, w, c);
    }
    if HasOmitted(t, user, next, i) {
      var c :| c in t.jobs && Child(t, user, next[i].job, c) && c !in Jobs(next);
      AppendedJobs(all, Accepted(t, user, w), w.pending[0].depth + 1, c);
    }
  }

  lemma OverflowIsOmission(t: Tables, user: nat, root: nat, w: Walk)
    requires w.pending != [] && Inv(t, user, root, w)
    ensures |w.result| < |All(Step(t, user, w))|
    ensures HasOmitted(t, user, All(Step(t, user, w)), |w.result|) <==> |Candidates(t, user, w)| > Capacity(w)
  {
    var next := All(Step(t, user, w));
    StepAppends(t, user, w);
    assert next[|w.result|] == w.pending[0];
    if |Candidates(t, user, w)| > Capacity(w) {
      OverflowLeavesOne(t, user, root, w);
      Overflow(t, user, w);
      CandidatesAreUnseen(t, user, w);
      var c := Candidates(t, user, w)[Capacity(w)];
      assert c in UnseenChildren(t, user, w);
    } else {
      forall c | c in t.jobs && Child(t, user, w.pending[0].job, c)
        ensures c in Jobs(next)
      {
        NoneMissing(t, user, w, c);
      }
    }
  }

  lemma {:induction false} SameOverflows(t: Tables, user: nat, all: seq<Node>, next: seq<Node>, k: nat)
    requires k <= |all| && k <= |next|
    requires forall i | 0 <= i < k :: HasOmitted(t, user, all, i) <==> HasOmitted(t, user, next, i)
    ensures Overflows(t, user, next, k) == Overflows(t, user, all, k)
  {
    if k > 0 {
      SameOverflows(t, user, all, next, k - 1);
    }
  }

  predicate Counted(t: Tables, user: nat, w: Walk) {
    w.hidden == Overflows(t, user, All(w), |w.result|)
  }

  lemma StepCountsOverflows(t: Tables, user: nat, root: nat, w: Walk)
    requires w.pending != [] && Inv(t, user, root, w) && Counted(t, user, w)
    ensures Counted(t, user, Step(t, user, w))
  {
    StepAppends(t, user, w);
    forall i | 0 <= i < |w.result|
      ensures HasOmitted(t, user, All(w), i) <==> HasOmitted(t, user, All(Step(t, user, w)), i)
    {
      OmissionStays(t, user, root, w, i);
    }
    SameOverflows(t, user, All(w), All(Step(t, user, w)), |w.result|);
    OverflowIsOmission(t, user, root, w);
  }

  predicate LeftBehind(t: Tables, user: nat, w: Walk, c: nat) {
    && c !in Jobs(All(w))
    && exists i | 0 <= i < |w.result| :: Child(t, user, w.result[i].job, c)
  }

  /** Each counted overflow left its own job behind for good. */
  predicate HiddenOk(t: Tables, user: nat, w: Walk, left: set<nat>) {
    && |left| == w.hidden && (w.truncated <==> w.hidden > 0)
    && forall c | c in left :: LeftBehind(t, user, w, c)
  }

  lemma OneParent(t: Tables, user: nat, parent: nat, other: nat, child: nat)
    requires Child(t, user, parent, child) && parent != other
    ensures !Child(t, user, other, child)
  {
  }

  lemma NotACandidate(t: Tables, user: nat, w: Walk, c: nat)
    requires w.pending != [] && !Child(t, user, w.pending[0].job, c)
    ensures c !in Candidates(t, user, w) && c !in Accepted(t, user, w)
  {
    CandidatesAreUnseen(t, user, w);
    TakeSome(Candidates(t, user, w), Capacity(w));
  }

  lemma StaysBehind(t: Tables, user: nat, root: nat, w: Walk, c: nat)
    requires w.pending != [] && Inv(t, user, root, w) && LeftBehind(t, user, w, c)
    ensures LeftBehind(t, user, Step(t, user, w), c) && c !in Candidates(t, user, w)
  {
    var i :| 0 <= i < |w.result| && Child(t, user, w.result[i].job, c);
    var next := Step(t, user, w);
    assert next.result[i] == w.result[i];
    assert Jobs(All(w))[i] == w.result[i].job && Jobs(All(w))[|w.result|] == w.pending[0].job;
    OneParent(t, user, w.result[i].job, w.pending[0].job, c);
    NotACandidate(t, user, w, c);
    StepAppends(t, user, w);
    AppendedJobs(All(w), Accepted(t, user, w), w.pending[0].depth + 1, c);
  }

  lemma OverflowLeavesOne(t: Tables, user: nat, root: nat, w: Walk)
    requires w.pending != [] && Inv(t, user, root, w)
    requires |Candidates(t, user, w)| > Capacity(w)
    ensures LeftBehind(t, user, Step(t, user, w), Candidates(t, user, w)[Capacity(w)])
  {
    var c := Candidates(t, user, w)[Capacity(w)];
    Overflow(t, user, w);
    CandidatesAreUnseen(t, user, w);
    StepAppends(t, user, w);
    AppendedJobs(All(w), Accepted(t, user, w), w.pending[0].depth + 1, c);
    assert c in UnseenChildren(t, user, w);
    assert Step(t, user, w).result[|w.result|] == w.pending[0];
  }

  lemma StepKeepsHidden(t: Tables, user: nat, root: nat, w: Walk, left: set<nat>) returns (more: set<nat>)
    requires w.pending != [] && Inv(t, user, root, w) && HiddenOk(t, user, w, left)
    ensures HiddenOk(t, user, Step(t, user, w), more)
  {
    forall c | c in left
      ensures LeftBehind(t, user, Step(t, user, w), c) && c !in Candidates(t, user, w)
    {
      StaysBehind(t, user, root, w, c);
    }
    more := left;
    if |Candidates(t, user, w)| > Capacity(w) {
      OverflowLeavesOne(t, user, root, w);
      more := left + {Candidates(t, user, w)[Capacity(w)]};
    }
  }

  // ----- what the finished walk says about the graph -----

  ghost function Descendants(t: Tables, user: nat, root: nat): set<nat> {
    set c | c in t.jobs && Reaches(t, user, root, c)
  }

  lemma {:induction false} AlongPath(t: Tables, user: nat, root: nat, w: Walk, p: seq<nat>)
    requires Inv(t, user, root, w) && w.pending == [] && Path(t, user, root, p)
    requires p[|p| - 1] !in Jobs(w.result)
    ensures w.truncated
    ensures forall m | 0 <= m < |w.result| :: w.result[m].depth < |p|
    ensures |w.result| == MAX_NODES || |p| > MAX_DEPTH + 1
    decreases |p|
  {
    var all := All(w);
    assert all == w.result && Jobs(all)[0] == root;
    if |p| > 1 {
      var parent := p[|p| - 2];
      assert PathTo(t, user, root, p[..|p| - 1], parent);
      if parent !in Jobs(all) {
        AlongPath(t, user, root, w, p[..|p| - 1]);
      } else {
        var i :| 0 <= i < |all| && Jobs(all)[i] == parent;
        assert NodeOk(t, user, root, all[i]) && Expanded(t, user, all, i, w.truncated);
        assert Child(t, user, parent, p[|p| - 1]);
        forall m | 0 <= m < |all|
          ensures all[m].depth < |p|
        {
          assert NodeOk(t, user, root, all[m]);
        }
      }
    }
  }

  lemma LeftIsReachable(t: Tables, user: nat, root: nat, w: Walk, c: nat)
    requires Inv(t, user, root, w) && LeftBehind(t, user, w, c)
    ensures c in Descendants(t, user, root) && c !in Jobs(w.result)
  {
    var i :| 0 <= i < |w.result| && Child(t, user, w.result[i].job, c);
    assert All(w)[i] == w.result[i];
    assert NodeOk(t, user, root, All(w)[i]);
    var p :| PathTo(t, user, root, p, w.result[i].job);
    OneStepFurther(t, user, root, p, w.result[i].job, c);
    assert PathTo(t, user, root, p + [c], c);
    ResultsAreSeen(w, c);
  }

  lemma ResultsAreSeen(w: Walk, c: nat)
    ensures c in Jobs(w.result) ==> c in Jobs(All(w))
  {
    if c in Jobs(w.result) {
      var m :| 0 <= m < |w.result| && Jobs(w.result)[m] == c;
      assert Jobs(All(w))[m] == c;
    }
  }

  lemma ResultsAreReachable(t: Tables, user: nat, root: nat, w: Walk)
    requires Inv(t, user, root, w)
    ensures Elements(Jobs(w.result)) <= Descendants(t, user, root)
  {
    forall c | c in Elements(Jobs(w.result))
      ensures c in Descendants(t, user, root)
    {
      var m :| 0 <= m < |w.result| && Jobs(w.result)[m] == c;
      assert All(w)[m] == w.result[m];
      assert NodeOk(t, user, root, All(w)[m]);
    }
  }

  lemma CompleteOrTruncated(t: Tables, user: nat, root: nat, w: Walk, left: set<nat>)
    requires Inv(t, user, root, w) && HiddenOk(t, user, w, left) && w.pending == []
    ensures !w.truncated <==> Elements(Jobs(w.result)) == Descendants(t, user, root)
    ensures w.hidden <= |Descendants(t, user, root) - Elements(Jobs(w.result))|
  {
    ResultsAreReachable(t, user, root, w);
    forall c | c in left
      ensures c in Descendants(t, user, root) - Elements(Jobs(w.result))
    {
      LeftIsReachable(t, user, root, w, c);
    }
    Smaller(left, Descendants(t, user, root) - Elements(Jobs(w.result)));
    forall c | !w.truncated && c in Descendants(t, user, root)
      ensures c in Elements(Jobs(w.result))
    {
      var p :| PathTo(t, user, root, p, c);
      if c !in Jobs(w.result) {
        AlongPath(t, user, root, w, p);
      }
    }
  }

  lemma {:induction false} Smaller(a: set<nat>, b: set<nat>)
    requires a <= b
    ensures |a| <= |b|
  {
    if a != {} {
      var x :| x in a;
      Smaller(a - {x}, b - {x});
    }
  }

  /** No job the walk left out is nearer than one it returned, and while the
      node budget is not used up only jobs beyond the depth cap are left out. */
  lemma NearestFirst(t: Tables, user: nat, root: nat, w: Walk, c: nat, depth: nat)
    requires Inv(t, user, root, w) && w.pending == []
    requires Distance(t, user, root, c, depth) && c !in Jobs(w.result)
    ensures forall m | 0 <= m < |w.result| :: w.result[m].depth <= depth
    ensures |w.result| < MAX_NODES ==> depth > MAX_DEPTH
  {
    var p :| PathTo(t, user, root, p, c) && |p| == depth + 1;
    AlongPath(t, user, root, w, p);
  }

  ghost predicate Answers(t: Tables, user: nat, root: nat, w: Walk) {
    && Distinct(Jobs(w.result)) && 0 < |w.result| <= 600 && w.result[0] == Node(root, 0)
    && (forall n | n in w.result :: NodeOk(t, user, root, n))
    && (forall i, j | 0 <= i < j < |w.result| :: w.result[i].depth <= w.result[j].depth)
    && (!w.truncated <==> Elements(Jobs(w.result)) == Descendants(t, user, root))
    && (w.truncated <==> w.hidden > 0)
    && w.hidden <= |Descendants(t, user, root) - Elements(Jobs(w.result))|
    && w.hidden == Overflows(t, user, w.result, |w.result|)
    && (forall i | 0 <= i < |w.result| :: MetThrough(t, user, w.result, |w.result|, i))
    && (forall m, n, i, j | 0 <= m < |w.result| && 0 <= n < |w.result| && 0 <= i < j < |w.result| ::
          Queued(t, user, w.result, m, n, i, j))
    && (forall m, i, c | 0 <= m < |w.result| && 0 <= i < |w.result| :: EarliestKept(t, user, w.result, m, i, c))
    && (forall c: nat, depth: nat :: Distance(t, user, root, c, depth) && c !in Jobs(w.result) ==>
          && (forall n | n in w.result :: n.depth <= depth)
          && (|w.result| < 600 ==> depth > 100))
  }

  /** Everything the loop keeps. */
  ghost predicate Sound(t: Tables, user: nat, root: nat, w: Walk, left: set<nat>) {
    && Inv(t, user, root, w) && OrderInv(t, user, w)
    && HiddenOk(t, user, w, left) && Counted(t, user, w)
  }

  lemma StepKeepsSound(t: Tables, user: nat, root: nat, w: Walk, left: set<nat>) returns (more: set<nat>)
    requires w.pending != [] && Sound(t, user, root, w, left)
    ensures Sound(t, user, root, Step(t, user, w), more)
  {
    more := StepKeepsHidden(t, user, root, w, left);
    StepKeepsInv(t, user, root, w);
    StepKeepsOrder(t, user, root, w);
    StepCountsOverflows(t, user, root, w);
  }

  lemma FinishedWalkAnswers(t: Tables, user: nat, root: nat, w: Walk, left: set<nat>)
    requires Sound(t, user, root, w, left) && w.pending == []
    ensures Answers(t, user, root, w)
  {
    assert All(w) == w.result;
    CompleteOrTruncated(t, user, root, w, left);
    forall c: nat, depth: nat | Distance(t, user, root, c, depth) && c !in Jobs(w.result)
      ensures forall n | n in w.result :: n.depth <= depth
      ensures |w.result| < MAX_NODES ==> depth > MAX_DEPTH
    {
      NearestFirst(t, user, root, w, c, depth);
    }
  }

  /** Nothing of anybody else's is answered, and no job is linked through a
      thumbnail: each returned job is the user's and has an image of its own, and
      each but the root was made from an image of a returned job. */
  lemma AnswerIsTheUsers(t: Tables, user: nat, root: nat, w: Walk, i: nat)
    requires Answers(t, user, root, w) && i < |w.result|
    ensures var j := w.result[i].job;
      && j in t.jobs && t.jobs[j].owner == user
      && (exists a | a in t.assets :: t.assets[a].job == Some(j) && t.assets[a].owner == user && !t.assets[a].thumbnail)
      && (i > 0 ==>
            && t.jobs[j].source.Some? && t.jobs[j].source.value in t.assets
            && var a := t.assets[t.jobs[j].source.value];
               a.owner == user && !a.thumbnail && a.job.Some? && a.job.value in Jobs(w.result))
  {
    var n := w.result[i];
    assert NodeOk(t, user, root, n) && MetThrough(t, user, w.result, |w.result|, i);
    var a :| a in t.assets && Output(t, user, a, n.job);
    if i > 0 {
      var m :| 0 <= m < |w.result| && Child(t, user, w.result[m].job, n.job);
      assert Jobs(w.result)[m] == w.result[m].job;
    }
  }

  lemma FirstStepOk(t: Tables, user: nat, root: nat)
    requires Eligible(t, user, root)
    ensures Sound(t, user, root, Walk([Node(root, 0)], [], false, 0), {})
  {
    RootDistance(t, user, root);
  }

  /** The subtree of a job, or nothing when the job is not this user's or has
      no output.  The loop ends on every graph. */
  method Subtree(t: Tables, user: nat, root: nat) returns (answer: Option<Walk>)
    ensures answer.None? <==> !Eligible(t, user, root)
    ensures answer.Some? ==> answer.value.pending == [] && Answers(t, user, root, answer.value)
  {
    if !Eligible(t, user, root) {
      return None;
    }
    var walk := Walk([Node(root, 0)], [], false, 0);
    FirstStepOk(t, user, root);
    ghost var left := {};
    while walk.pending != []
      invariant Sound(t, user, root, walk, left)
      decreases MAX_NODES - |walk.result|
    {
      left := StepKeepsSound(t, user, root, walk, left);
      walk := Step(t, user, walk);
    }
    FinishedWalkAnswers(t, user, root, walk, left);
    return Some(walk);
  }
}

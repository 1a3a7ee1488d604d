/** The order in which the command-journal transactions take their locks.

    A transaction is the list of locks its statements ask for, in program order.
    Every lock is treated as exclusive, FOR SHARE included, so the model only
    adds waits. Row identifiers that SQL sorts (UUIDs, worker names, regions)
    are numbers standing for their place in that sort order.

    Locks come in two sorts. A ranked lock can be contended by any transaction
    and must be asked for in ascending rank. A guarded lock is one that every
    transaction in this model asks for only while it already holds its guard, so
    nobody ever waits for it, and it may be asked for at any moment. */
module LockOrder {
  import opened Wrappers

  type UserId = u: seq<nat> | |u| == 16 && forall i | 0 <= i < |u| :: u[i] < 256
    witness seq(16, i => 0)

  datatype SubjectKind = SessionSubject | JobSubject

  datatype OwnedTable = Users | AuthSessions | Assets

  datatype AttachedTable = Attempts | PhysicalRanges

  datatype Lock =
    | AccountKey(key: int)
    | Entity(kind: SubjectKind, id: nat)
    | Command(worker: nat, incarnation: nat, sequence: nat)
    | Lease(region: nat)
    | Connection(worker: nat, incarnation: nat)
    | Owned(user: UserId, table: OwnedTable, row: nat)
    | Attached(kind: SubjectKind, subject: nat, part: AttachedTable, row: nat)

  const TWO_63 := 0x8000_0000_0000_0000
  const TWO_64 := 0x1_0000_0000_0000_0000

  function BigEndian(bytes: seq<nat>): nat {
    if bytes == [] then 0 else BigEndian(bytes[..|bytes| - 1]) * 256 + bytes[|bytes| - 1]
  }

  /** The advisory key of an account: its first eight bytes read as a signed
      64-bit integer. Two accounts may share a key. */
  function BudgetLock(user: UserId): int {
    var n := BigEndian(user[..8]);
    if n < TWO_63 then n else n - TWO_64
  }

  function KindRank(kind: SubjectKind): int {
    if kind.SessionSubject? then 0 else 1
  }

  function Rank(l: Lock): seq<int> {
    match l
    case AccountKey(key) => [0, if key < 0 then key + TWO_64 else key]
    case Entity(kind, id) => [1, KindRank(kind), id]
    case Command(w, i, s) => [2, w, i, s]
    case Lease(r) => [3, r]
    case Connection(w, i) => [4, w, i]
    case Owned(_, _, _) => []
    case Attached(_, _, _, _) => []
  }

  function Guard(l: Lock): Option<Lock> {
    match l
    case Owned(user, _, _) => Some(AccountKey(BudgetLock(user)))
    case Attached(kind, subject, _, _) => Some(Entity(kind, subject))
    case _ => None
  }

  predicate Ranked(l: Lock) {
    Guard(l).None?
  }

  /** Lexicographic order on ranks. */
  predicate Less(a: seq<int>, b: seq<int>) {
    if b == [] then false
    else if a == [] then true
    else a[0] < b[0] || (a[0] == b[0] && Less(a[1..], b[1..]))
  }

  lemma {:induction false} LessIsTransitive(a: seq<int>, b: seq<int>, c: seq<int>)
    requires Less(a, b) && Less(b, c)
    ensures Less(a, c)
  {
    if a != [] && a[0] == b[0] && b[0] == c[0] {
      LessIsTransitive(a[1..], b[1..], c[1..]);
    }
  }

  lemma {:induction false} LessIsIrreflexive(a: seq<int>)
    ensures !Less(a, a)
  {
    if a != [] {
      LessIsIrreflexive(a[1..]);
    }
  }

  lemma {:induction false} LessIsTotal(a: seq<int>, b: seq<int>)
    ensures a == b || Less(a, b) || Less(b, a)
  {
    if a != [] && b != [] && a[0] == b[0] {
      LessIsTotal(a[1..], b[1..]);
      if a[1..] == b[1..] {
        assert a == [a[0]] + a[1..] && b == [b[0]] + b[1..];
      }
    }
  }

  // ----- the discipline -----

  /** A transaction holding `held` may ask for `l`. */
  predicate Allowed(held: seq<Lock>, l: Lock) {
    if Ranked(l) then
      forall h | h in held && Ranked(h) :: Less(Rank(h), Rank(l))
    else
      Guard(l).value in held
  }

  /** Request `i` of a program. Asking again for a lock already held never waits. */
  predicate AllowedAt(program: seq<Lock>, i: nat)
    requires i < |program|
  {
    program[i] in program[..i] || Allowed(program[..i], program[i])
  }

  predicate Disciplined(program: seq<Lock>) {
    forall i: nat | i < |program| :: AllowedAt(program, i)
  }

  // ----- the lock manager -----

  datatype Transaction = Transaction(program: seq<Lock>, taken: nat)

  type System = map<nat, Transaction>

  predicate WellFormed(s: System) {
    forall t | t in s :: s[t].taken <= |s[t].program|
  }

  function Held(x: Transaction): seq<Lock>
    requires x.taken <= |x.program|
  {
    x.program[..x.taken]
  }

  predicate Waits(s: System, t: nat, u: nat)
    requires WellFormed(s)
  {
    t in s && u in s && t != u
    && s[t].taken < |s[t].program| && s[t].program[s[t].taken] in Held(s[u])
  }

  predicate Blocked(s: System, t: nat)
    requires WellFormed(s)
  {
    exists u | u in s :: Waits(s, t, u)
  }

  datatype Step = Begin(t: nat, program: seq<Lock>) | Acquire(t: nat) | Finish(t: nat)

  /** Begin admits any program the caller names; Finish is a commit or a refusal
      at any point, and drops every lock at once. */
  ghost predicate Enabled(s: System, step: Step)
    requires WellFormed(s)
  {
    match step
    case Begin(t, program) => t !in s && Disciplined(program)
    case Acquire(t) => t in s && s[t].taken < |s[t].program| && !Blocked(s, t)
    case Finish(t) => t in s
  }

  ghost function Apply(s: System, step: Step): (s': System)
    requires WellFormed(s) && Enabled(s, step)
    ensures WellFormed(s')
  {
    match step
    case Begin(t, program) => s[t := Transaction(program, 0)]
    case Acquire(t) => s[t := s[t].(taken := s[t].taken + 1)]
    case Finish(t) => s - {t}
  }

  ghost predicate Reachable(s: System, steps: seq<Step>)
    decreases |steps|
  {
    if steps == [] then s == map[]
    else exists s0 :: WellFormed(s0) && Reachable(s0, steps[..|steps| - 1])
                      && Enabled(s0, steps[|steps| - 1]) && Apply(s0, steps[|steps| - 1]) == s
  }

  /** No lock has two holders. */
  predicate Apart(x: Transaction, y: Transaction)
    requires x.taken <= |x.program| && y.taken <= |y.program|
  {
    forall l | l in Held(x) :: l !in Held(y)
  }

  ghost predicate Inv(s: System) {
    && WellFormed(s)
    && (forall t | t in s :: Disciplined(s[t].program))
    && (forall t, u | t in s && u in s && t != u :: Apart(s[t], s[u]))
  }

  lemma StepKeepsInv(s: System, step: Step)
    requires Inv(s) && Enabled(s, step)
    ensures Inv(Apply(s, step))
  {
    var s' := Apply(s, step);
    match step
    case Begin(x, _) =>
    case Finish(x) =>
    case Acquire(x) =>
      var asked := s[x].program[s[x].taken];
      assert Held(s'[x]) == Held(s[x]) + [asked];
      forall t | t in s && t != x
        ensures Apart(s'[x], s[t]) && Apart(s[t], s'[x])
      {
        assert !Waits(s, x, t);
        assert Apart(s[x], s[t]);
      }
  }

  lemma {:induction false} ReachableInv(s: System, steps: seq<Step>)
    requires Reachable(s, steps)
    ensures Inv(s)
    decreases |steps|
  {
    if steps != [] {
      var s0 :| WellFormed(s0) && Reachable(s0, steps[..|steps| - 1])
        && Enabled(s0, steps[|steps| - 1]) && Apply(s0, steps[|steps| - 1]) == s;
      ReachableInv(s0, steps[..|steps| - 1]);
      StepKeepsInv(s0, steps[|steps| - 1]);
    }
  }

  /** A guarded lock is in a program prefix only together with its guard. */
  lemma {:induction false} GuardIsHeld(program: seq<Lock>, n: nat, l: Lock)
    requires Disciplined(program) && n <= |program| && l in program[..n] && !Ranked(l)
    ensures Guard(l).value in program[..n]
  {
    var i: nat :| i < n && program[i] == l;
    assert AllowedAt(program, i);
    if l in program[..i] {
      GuardIsHeld(program, i, l);
    }
  }

  /** Nobody waits for a guarded lock, and whoever waits for a ranked one holds
      only smaller ranks. */
  lemma WaitsClimb(s: System, t: nat, u: nat)
    requires Inv(s) && Waits(s, t, u)
    ensures var l := s[t].program[s[t].taken];
            Ranked(l) && forall h | h in Held(s[t]) && Ranked(h) :: Less(Rank(h), Rank(l))
  {
    var l := s[t].program[s[t].taken];
    assert AllowedAt(s[t].program, s[t].taken);
    assert Apart(s[t], s[u]);
    if !Ranked(l) {
      GuardIsHeld(s[u].program, s[u].taken, l);
      assert false;
    }
  }

  /** Two waits in a row ask for ever larger ranks. */
  lemma TwoWaitsClimb(s: System, t: nat, u: nat, v: nat)
    requires Inv(s) && Waits(s, t, u) && Waits(s, u, v)
    ensures Less(Rank(s[t].program[s[t].taken]), Rank(s[u].program[s[u].taken]))
  {
    WaitsClimb(s, t, u);
    WaitsClimb(s, u, v);
  }

  ghost predicate WaitCycle(s: System, cycle: seq<nat>)
    requires WellFormed(s)
  {
    |cycle| > 0 && forall i: nat {:trigger After(cycle, i)} | i < |cycle| :: Waits(s, cycle[i], After(cycle, i))
  }

  /** The next transaction round the cycle. */
  function After(cycle: seq<nat>, i: nat): nat
    requires i < |cycle|
  {
    if i + 1 == |cycle| then cycle[0] else cycle[i + 1]
  }

  function WantedRank(s: System, t: nat): seq<int> {
    if t in s && s[t].taken < |s[t].program| then Rank(s[t].program[s[t].taken]) else []
  }

  lemma {:induction false} CycleClimbs(s: System, cycle: seq<nat>, n: nat)
    requires Inv(s) && WaitCycle(s, cycle) && n < |cycle|
    ensures Less(WantedRank(s, cycle[0]), WantedRank(s, After(cycle, n)))
  {
    var m := if n + 1 == |cycle| then 0 else n + 1;
    var next := After(cycle, m);
    assert Waits(s, cycle[n], After(cycle, n)) && After(cycle, n) == cycle[m];
    TwoWaitsClimb(s, cycle[n], cycle[m], next);
    if n > 0 {
      CycleClimbs(s, cycle, n - 1);
      LessIsTransitive(WantedRank(s, cycle[0]), WantedRank(s, cycle[n]), WantedRank(s, cycle[m]));
    }
  }

  /** No reachable state of disciplined transactions has a wait-for cycle. */
  lemma NoWaitCycle(s: System, steps: seq<Step>, cycle: seq<nat>)
    requires Reachable(s, steps)
    ensures WellFormed(s) && !WaitCycle(s, cycle)
  {
    ReachableInv(s, steps);
    if WaitCycle(s, cycle) {
      CycleClimbs(s, cycle, |cycle| - 1);
      LessIsIrreflexive(WantedRank(s, cycle[0]));
    }
  }

  /** Among blocked transactions, one wants a lock of greatest rank. */
  lemma {:induction false} GreatestWant(s: System, ts: set<nat>) returns (t: nat)
    requires ts != {}
    ensures t in ts && forall u | u in ts :: !Less(WantedRank(s, t), WantedRank(s, u))
    decreases ts
  {
    t :| t in ts;
    LessIsIrreflexive(WantedRank(s, t));
    if ts != {t} {
      var rest := ts - {t};
      assert ts == rest + {t};
      var best := GreatestWant(s, rest);
      if Less(WantedRank(s, t), WantedRank(s, best)) {
        forall u | u in ts
          ensures !Less(WantedRank(s, best), WantedRank(s, u))
        {
          if u == t && Less(WantedRank(s, best), WantedRank(s, t)) {
            LessIsTransitive(WantedRank(s, t), WantedRank(s, best), WantedRank(s, t));
          }
        }
        t := best;
      } else {
        forall u | u in rest
          ensures !Less(WantedRank(s, t), WantedRank(s, u))
        {
          if Less(WantedRank(s, t), WantedRank(s, u)) {
            LessIsTotal(WantedRank(s, best), WantedRank(s, t));
            if Less(WantedRank(s, best), WantedRank(s, t)) {
              LessIsTransitive(WantedRank(s, best), WantedRank(s, t), WantedRank(s, u));
            }
          }
        }
      }
    }
  }

  lemma BlockedWaits(s: System, t: nat) returns (u: nat)
    requires WellFormed(s) && Blocked(s, t)
    ensures u in s && Waits(s, t, u)
  {
    u :| u in s && Waits(s, t, u);
  }

  /** While any transaction is open, one of them is not waiting for a lock. */
  lemma SomeoneCanMove(s: System, steps: seq<Step>)
    requires Reachable(s, steps) && s != map[]
    ensures WellFormed(s) && exists t | t in s :: !Blocked(s, t)
  {
    ReachableInv(s, steps);
    assert s.Keys != {};
    var top := GreatestWant(s, s.Keys);
    if Blocked(s, top) {
      var u := BlockedWaits(s, top);
      if Blocked(s, u) {
        var v := BlockedWaits(s, u);
        TwoWaitsClimb(s, top, u, v);
        assert false;
      }
    }
  }
}

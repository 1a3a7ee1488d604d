/** The startup lock shared inside one process: the first context to enter owns
    the database connection, later ones borrow it, and the owner closes it only
    after every borrower has left.

    A step is one section under the guard, or one resumption of a context that
    waited for the owner's acquisition. */
module StartupLock {
  import opened Wrappers

  datatype Future = Pending | Done | Failed

  /** The module globals, all written under the guard. */
  datatype Guard = Guard(
    holders: int,
    connection: bool,
    acquisition: Option<nat>,
    borrowersDone: Option<Future>,
    closing: bool)

  datatype Owner =
    | Nobody
    | Acquiring(id: nat, future: nat)
    | Holding(id: nat, future: nat)
    | Closing(id: nat, future: nat, waits: bool)
    | Disconnecting(id: nat)

  /** `waiting` maps a borrower to the acquisition future it captured; a future
      is its index in `futures`. */
  datatype State = State(
    guard: Guard, owner: Owner,
    waiting: map<nat, nat>, bodies: set<nat>,
    futures: seq<Future>, acquired: nat, closed: nat)

  datatype Event =
    | Enter(id: nat)
    | Acquired
    | AcquireFails
    | Admitted(id: nat)          // the awaited acquisition succeeded
    | Refused(id: nat)           // it failed
    | WaitCancelled(id: nat)
    | BorrowerLeaves(id: nat)
    | OwnerLeaves
    | OwnerCloses
    | Disconnected

  function Idle(): Guard {
    Guard(0, false, None, None, false)
  }

  function Init(): State {
    State(Idle(), Nobody, map[], {}, [], 0, 0)
  }

  // ----- the guarded sections -----

  /** None when the lock is closing: entering raises. */
  function Entered(g: Guard, future: nat): Option<Guard> {
    if g.closing then None
    else if g.holders == 0 then
      Some(g.(holders := g.holders + 1, acquisition := Some(future), borrowersDone := Some(Pending)))
    else Some(g.(holders := g.holders + 1))
  }

  /** Whether leaving resolves `borrowers_done`. */
  predicate ResolvesDone(g: Guard) {
    g.closing && g.holders - 1 == 1 && g.borrowersDone.Some?
  }

  function BorrowerGone(g: Guard): Guard {
    var h := g.(holders := g.holders - 1);
    var r := if ResolvesDone(g) then h.(borrowersDone := Some(Done)) else h;
    if r.holders == 0 && !r.connection then r.(acquisition := None, borrowersDone := None) else r
  }

  function OwnerFailed(g: Guard): Guard {
    var h := g.(holders := g.holders - 1);
    if h.holders == 0 then h.(acquisition := None, borrowersDone := None) else h
  }

  // ----- steps -----

  function Ids(s: State): set<nat> {
    s.waiting.Keys + s.bodies + (if s.owner.Nobody? then {} else {s.owner.id})
  }

  predicate Enabled(s: State, ev: Event) {
    match ev
    case Enter(id) => id !in Ids(s)
    case Acquired => s.owner.Acquiring? && s.owner.future < |s.futures|
    case AcquireFails => s.owner.Acquiring? && s.owner.future < |s.futures|
    case Admitted(id) =>
      id in s.waiting && s.waiting[id] < |s.futures| && s.futures[s.waiting[id]].Done?
    case Refused(id) =>
      id in s.waiting && s.waiting[id] < |s.futures| && s.futures[s.waiting[id]].Failed?
    case WaitCancelled(id) => id in s.waiting
    case BorrowerLeaves(id) => id in s.bodies
    case OwnerLeaves => s.owner.Holding?
    case OwnerCloses =>
      s.owner.Closing? && (s.owner.waits ==> s.guard.borrowersDone == Some(Done))
    case Disconnected => s.owner.Disconnecting?
  }

  function Next(s: State, ev: Event): State
    requires Enabled(s, ev)
  {
    match ev
    case Enter(id) =>
      var entered := Entered(s.guard, |s.futures|);
      if entered.None? then s
      else if s.guard.holders == 0 then
        s.(guard := entered.value, owner := Acquiring(id, |s.futures|), futures := s.futures + [Pending])
      else if s.guard.acquisition.Some? then
        s.(guard := entered.value, waiting := s.waiting[id := s.guard.acquisition.value])
      else s.(guard := entered.value, bodies := s.bodies + {id})
    case Acquired =>
      s.(guard := s.guard.(connection := true, acquisition := None),
         owner := Holding(s.owner.id, s.owner.future),
         futures := s.futures[s.owner.future := Done], acquired := s.acquired + 1)
    case AcquireFails =>
      s.(guard := OwnerFailed(s.guard), owner := Nobody, futures := s.futures[s.owner.future := Failed])
    case Admitted(id) => s.(waiting := s.waiting - {id}, bodies := s.bodies + {id})
    case Refused(id) => s.(guard := BorrowerGone(s.guard), waiting := s.waiting - {id})
    case WaitCancelled(id) => s.(guard := BorrowerGone(s.guard), waiting := s.waiting - {id})
    case BorrowerLeaves(id) => s.(guard := BorrowerGone(s.guard), bodies := s.bodies - {id})
    case OwnerLeaves =>
      s.(guard := s.guard.(closing := true),
         owner := Closing(s.owner.id, s.owner.future, s.guard.holders > 1))
    case OwnerCloses =>
      // A count other than one raises before anything is closed.
      if s.guard.holders != 1 then s
      else s.(guard := s.guard.(holders := 0, connection := false), owner := Disconnecting(s.owner.id),
              closed := s.closed + 1)
    case Disconnected =>
      s.(guard := s.guard.(acquisition := None, borrowersDone := None, closing := false), owner := Nobody)
  }

  predicate Run(evs: seq<Event>)
    decreases |evs|, 0
  {
    evs == [] || (Run(evs[..|evs| - 1]) && Enabled(After(evs[..|evs| - 1]), evs[|evs| - 1]))
  }

  function After(evs: seq<Event>): State
    requires Run(evs)
    decreases |evs|, 1
  {
    if evs == [] then Init() else Next(After(evs[..|evs| - 1]), evs[|evs| - 1])
  }

  // ----- what every step keeps -----

  function Active(s: State): nat {
    |s.waiting.Keys| + |s.bodies|
    + if s.owner.Acquiring? || s.owner.Holding? || s.owner.Closing? then 1 else 0
  }

  /** Everybody who waits, waits for one and the same acquisition. */
  predicate WaitsFor(s: State, future: nat, outcome: Future) {
    && future < |s.futures| && s.futures[future] == outcome
    && forall id | id in s.waiting :: s.waiting[id] == future
  }

  predicate OwnerInv(s: State) {
    match s.owner
    case Nobody =>
      && !s.guard.connection && !s.guard.closing && s.bodies == {}
      && if s.waiting == map[] then s.guard == Idle()
         else s.guard.acquisition.Some? && WaitsFor(s, s.guard.acquisition.value, Failed)
    case Acquiring(_, f) =>
      && !s.guard.connection && !s.guard.closing && s.bodies == {}
      && s.guard.acquisition == Some(f) && s.guard.borrowersDone == Some(Pending) && WaitsFor(s, f, Pending)
    case Holding(_, f) =>
      && s.guard.connection && !s.guard.closing
      && s.guard.acquisition.None? && s.guard.borrowersDone == Some(Pending) && WaitsFor(s, f, Done)
    case Closing(_, f, waits) =>
      && s.guard.connection && s.guard.closing
      && s.guard.acquisition.None? && WaitsFor(s, f, Done)
      && (!waits ==> s.guard.holders == 1 && s.guard.borrowersDone == Some(Pending))
      && (waits ==> s.guard.borrowersDone == Some(if s.guard.holders == 1 then Done else Pending))
    case Disconnecting(_) =>
      && !s.guard.connection && s.guard.closing && s.bodies == {} && s.waiting == map[]
  }

  predicate Inv(s: State) {
    && s.guard.holders == Active(s)
    && s.waiting.Keys !! s.bodies
    && (!s.owner.Nobody? ==> s.owner.id !in s.waiting && s.owner.id !in s.bodies)
    && OwnerInv(s)
    && s.acquired == s.closed + if s.guard.connection then 1 else 0
  }

  lemma Empty(waiting: map<nat, nat>)
    ensures waiting == map[] <==> |waiting.Keys| == 0
  {
    if |waiting.Keys| == 0 {
      assert waiting.Keys == {};
    }
  }

  lemma OneLess(waiting: map<nat, nat>, id: nat)
    requires id in waiting
    ensures |(waiting - {id}).Keys| == |waiting.Keys| - 1
  {
    assert (waiting - {id}).Keys == waiting.Keys - {id};
    assert waiting.Keys == (waiting.Keys - {id}) + {id};
  }

  lemma OneMore(waiting: map<nat, nat>, id: nat, future: nat)
    requires id !in waiting
    ensures |waiting[id := future].Keys| == |waiting.Keys| + 1
  {
    assert waiting[id := future].Keys == waiting.Keys + {id};
  }

  lemma WaitKeepsInv(s: State, id: nat, future: nat)
    requires Inv(s) && !s.guard.closing && s.guard.holders != 0 && s.guard.acquisition == Some(future)
    requires id !in Ids(s)
    ensures Inv(s.(guard := s.guard.(holders := s.guard.holders + 1), waiting := s.waiting[id := future]))
  {
    Empty(s.waiting);
    OneMore(s.waiting, id, future);
    Empty(s.waiting[id := future]);
  }

  lemma EnterKeepsInv(s: State, id: nat)
    requires Inv(s) && Enabled(s, Enter(id))
    ensures Inv(Next(s, Enter(id)))
  {
    if !s.guard.closing && s.guard.holders != 0 && s.guard.acquisition.Some? {
      WaitKeepsInv(s, id, s.guard.acquisition.value);
    } else if s.guard.holders == 0 {
      FirstKeepsInv(s, id);
    } else {
      BorrowKeepsInv(s, id);
    }
  }

  lemma FirstKeepsInv(s: State, id: nat)
    requires Inv(s) && Enabled(s, Enter(id)) && s.guard.holders == 0
    ensures Inv(Next(s, Enter(id)))
  {
    Empty(s.waiting);
  }

  /** Past the acquisition a borrower walks straight into its body. */
  lemma BorrowKeepsInv(s: State, id: nat)
    requires Inv(s) && Enabled(s, Enter(id)) && s.guard.holders != 0
    requires s.guard.closing || s.guard.acquisition.None?
    ensures Inv(Next(s, Enter(id)))
  {
    Empty(s.waiting);
  }

  /** A borrower that stops waiting leaves the guard as the owner expects it. */
  lemma StopWaitingKeepsInv(s: State, ev: Event, id: nat)
    requires Inv(s) && Enabled(s, ev) && (ev == Refused(id) || ev == WaitCancelled(id))
    ensures Inv(Next(s, ev))
  {
    OneLess(s.waiting, id);
    Empty(s.waiting - {id});
  }

  lemma LeaveKeepsInv(s: State, id: nat)
    requires Inv(s) && Enabled(s, BorrowerLeaves(id))
    ensures Inv(Next(s, BorrowerLeaves(id)))
  {
    assert s.bodies == (s.bodies - {id}) + {id};
  }

  lemma AdmitKeepsInv(s: State, id: nat)
    requires Inv(s) && Enabled(s, Admitted(id))
    ensures Inv(Next(s, Admitted(id)))
  {
    OneLess(s.waiting, id);
  }

  lemma OwnerKeepsInv(s: State, ev: Event)
    requires Inv(s) && Enabled(s, ev)
    requires ev.Acquired? || ev.AcquireFails? || ev.OwnerLeaves? || ev.OwnerCloses? || ev.Disconnected?
    ensures Inv(Next(s, ev))
  {
    Empty(s.waiting);
  }

  lemma NextKeepsInv(s: State, ev: Event)
    requires Inv(s) && Enabled(s, ev)
    ensures Inv(Next(s, ev))
  {
    match ev
    case Enter(id) => EnterKeepsInv(s, id);
    case Admitted(id) => AdmitKeepsInv(s, id);
    case Refused(id) => StopWaitingKeepsInv(s, ev, id);
    case WaitCancelled(id) => StopWaitingKeepsInv(s, ev, id);
    case BorrowerLeaves(id) => LeaveKeepsInv(s, id);
    case _ => OwnerKeepsInv(s, ev);
  }

  lemma {:induction false} RunKeepsInv(evs: seq<Event>)
    requires Run(evs)
    ensures Inv(After(evs))
  {
    if evs != [] {
      RunKeepsInv(evs[..|evs| - 1]);
      NextKeepsInv(After(evs[..|evs| - 1]), evs[|evs| - 1]);
    }
  }

  // ----- the claims -----

  /** While any body runs, the owner's or a borrower's, the connection is held;
      and the count is always the number of active contexts. */
  lemma HeldWhileAnyBodyRuns(evs: seq<Event>)
    requires Run(evs)
    ensures After(evs).bodies != {} || After(evs).owner.Holding? ==> After(evs).guard.connection
    ensures After(evs).guard.holders == Active(After(evs))
  {
    RunKeepsInv(evs);
  }

  /** The owner may close exactly when everybody else has left; the count is
      then one, and closing takes the connection away. */
  predicate ClosesLast(s: State) {
    && (Enabled(s, OwnerCloses) <==> s.owner.Closing? && s.bodies == {} && s.waiting == map[])
    && (Enabled(s, OwnerCloses) ==> s.guard.holders == 1)
    && s.acquired == s.closed + (if s.guard.connection then 1 else 0)
  }

  lemma InvClosesLast(s: State)
    requires Inv(s)
    ensures ClosesLast(s)
  {
    Empty(s.waiting);
  }

  /** In every run the owner closes last, and each acquired connection is closed
      once: all but the one held now have been. */
  lemma OwnerClosesLast(evs: seq<Event>)
    requires Run(evs)
    ensures ClosesLast(After(evs))
  {
    RunKeepsInv(evs);
    InvClosesLast(After(evs));
  }

  predicate Leaves(s: State, ev: Event) {
    ev.Refused? || ev.WaitCancelled? || ev.BorrowerLeaves?
  }

  /** Resolving a future twice raises; neither future ever is. */
  lemma ResolvedOnce(evs: seq<Event>, ev: Event)
    requires Run(evs) && Enabled(After(evs), ev)
    ensures Leaves(After(evs), ev) && ResolvesDone(After(evs).guard) ==>
      After(evs).guard.borrowersDone == Some(Pending)
    ensures ev.Acquired? || ev.AcquireFails? ==> After(evs).futures[After(evs).owner.future] == Pending
  {
    RunKeepsInv(evs);
  }

  /** After a failed acquisition nobody enters a body, and the exit of the last
      borrower puts the guard back to where it began. */
  lemma FailureLeavesNoTrace(evs: seq<Event>)
    requires Run(evs) && After(evs).owner.Nobody?
    ensures After(evs).bodies == {} && !After(evs).guard.connection
    ensures After(evs).waiting == map[] ==> After(evs).guard == Idle()
    ensures forall id | id in After(evs).waiting ::
      After(evs).waiting[id] < |After(evs).futures| && After(evs).futures[After(evs).waiting[id]] == Failed
  {
    RunKeepsInv(evs);
  }

  /** A context gets in exactly while the owner is not closing; the first to
      enter becomes the owner, whoever comes during its acquisition waits for
      that, and whoever comes after it runs at once. */
  lemma EntersExactly(evs: seq<Event>, id: nat)
    requires Run(evs) && Enabled(After(evs), Enter(id))
    ensures var s, t := After(evs), Next(After(evs), Enter(id));
      && (id in Ids(t) <==> !s.owner.Closing? && !s.owner.Disconnecting?)
      && (id !in Ids(t) ==> t == s)
      && (s.owner.Nobody? && s.waiting == map[] ==> t.owner == Acquiring(id, |s.futures|))
      && (s.owner.Acquiring? ==> id in t.waiting && t.waiting[id] == s.owner.future)
      && (s.owner.Holding? ==> id in t.bodies)
      && (s.owner.Nobody? && s.waiting != map[] ==>
            id in t.waiting && t.waiting[id] < |s.futures| && s.futures[t.waiting[id]] == Failed)
  {
    RunKeepsInv(evs);
    Empty(After(evs).waiting);
  }

  /** How much those inside still have to do. */
  function Left(s: State): nat {
    2 * |s.waiting.Keys| + |s.bodies|
    + match s.owner
      case Nobody => 0
      case Acquiring(_, _) => 4
      case Holding(_, _) => 3
      case Closing(_, _, _) => 2
      case Disconnecting(_) => 1
  }

  lemma OwnerProgress(s: State, ev: Event)
    requires Inv(s) && Enabled(s, ev)
    requires ev.Acquired? || ev.AcquireFails? || ev.OwnerLeaves? || ev.OwnerCloses? || ev.Disconnected?
    ensures Left(Next(s, ev)) < Left(s)
  {
    InvClosesLast(s);
    match ev
    case Acquired =>
    case AcquireFails =>
    case OwnerLeaves =>
    case OwnerCloses =>
    case Disconnected =>
  }

  lemma WaiterProgress(s: State, ev: Event, id: nat)
    requires Enabled(s, ev) && (ev == Admitted(id) || ev == Refused(id) || ev == WaitCancelled(id))
    requires s.waiting.Keys !! s.bodies
    ensures Left(Next(s, ev)) < Left(s)
  {
    OneLess(s.waiting, id);
    if ev.Admitted? {
      assert |s.bodies + {id}| == |s.bodies| + 1;
    }
  }

  lemma BorrowerProgress(s: State, id: nat)
    requires Enabled(s, BorrowerLeaves(id))
    ensures Left(Next(s, BorrowerLeaves(id))) < Left(s)
  {
    assert s.bodies == (s.bodies - {id}) + {id};
  }

  lemma EveryStepIsProgress(s: State, ev: Event)
    requires Inv(s) && Enabled(s, ev) && !ev.Enter?
    ensures Left(Next(s, ev)) < Left(s)
  {
    match ev
    case Admitted(id) => WaiterProgress(s, ev, id);
    case Refused(id) => WaiterProgress(s, ev, id);
    case WaitCancelled(id) => WaiterProgress(s, ev, id);
    case BorrowerLeaves(id) => BorrowerProgress(s, id);
    case _ => OwnerProgress(s, ev);
  }

  /** Nobody is ever stuck inside: while anybody is, some step other than a
      further entry and a cancellation is possible, and every such step leaves
      less to do, so everybody gets out in the end. */
  lemma NobodyIsStuck(evs: seq<Event>)
    requires Run(evs) && Ids(After(evs)) != {}
    ensures exists ev :: Enabled(After(evs), ev) && !ev.Enter? && !ev.WaitCancelled?
    ensures forall ev | Enabled(After(evs), ev) && !ev.Enter? :: Left(Next(After(evs), ev)) < Left(After(evs))
  {
    RunKeepsInv(evs);
    var s := After(evs);
    SomebodyCanMove(s);
    forall ev | Enabled(s, ev) && !ev.Enter?
      ensures Left(Next(s, ev)) < Left(s)
    {
      EveryStepIsProgress(s, ev);
    }
  }

  lemma SomebodyCanMove(s: State)
    requires Inv(s) && Ids(s) != {}
    ensures exists ev :: Enabled(s, ev) && !ev.Enter? && !ev.WaitCancelled?
  {
    InvClosesLast(s);
    if s.owner.Acquiring? {
      assert Enabled(s, Acquired);
    } else if s.owner.Holding? {
      assert Enabled(s, OwnerLeaves);
    } else if s.owner.Disconnecting? {
      assert Enabled(s, Disconnected);
    } else if s.bodies != {} {
      var id :| id in s.bodies;
      assert Enabled(s, BorrowerLeaves(id));
    } else if s.waiting.Keys != {} {
      var id :| id in s.waiting.Keys;
      assert Enabled(s, if s.owner.Nobody? then Refused(id) else Admitted(id));
    } else {
      assert Enabled(s, OwnerCloses);
    }
  }

  // ----- the guard, updated in place -----

  class LockGuard {
    var holders: int
    var connection: bool
    var acquisition: Option<nat>
    var borrowersDone: Option<Future>
    var closing: bool

    constructor ()
      ensures Value() == Idle()
    {
      holders, connection, acquisition, borrowersDone, closing := 0, false, None, None, false;
    }

    ghost function Value(): Guard
      reads this
    {
      Guard(holders, connection, acquisition, borrowersDone, closing)
    }

    /** The section that admits a context; `first` makes it the owner. */
    method TryEnter(future: nat) returns (admitted: bool, first: bool, awaited: Option<nat>)
      modifies this
      ensures admitted <==> Entered(old(Value()), future).Some?
      ensures !admitted ==> Value() == old(Value())
      ensures admitted ==>
        && Value() == Entered(old(Value()), future).value
        && (first <==> old(holders) == 0)
        && awaited == if first then Some(future) else old(acquisition)
    {
      if closing {
        return false, false, None;
      }
      first := holders == 0;
      holders := holders + 1;
      if first {
        awaited := Some(future);
        acquisition := awaited;
        borrowersDone := Some(Pending);
      } else {
        awaited := acquisition;
      }
      admitted := true;
    }

    method ReleaseBorrower()
      modifies this
      ensures Value() == BorrowerGone(old(Value()))
    {
      holders := holders - 1;
      if closing && holders == 1 && borrowersDone.Some? {
        borrowersDone := Some(Done);
      }
      if holders == 0 && !connection {
        acquisition := None;
        borrowersDone := None;
      }
    }

    method GiveUpAcquisition()
      modifies this
      ensures Value() == OwnerFailed(old(Value()))
    {
      holders := holders - 1;
      if holders == 0 {
        acquisition := None;
        borrowersDone := None;
      }
    }

    /** The owner's body is over; from here on nobody enters. */
    method StartClosing() returns (waits: bool)
      modifies this
      ensures Value() == old(Value()).(closing := true)
      ensures waits <==> old(holders) > 1
    {
      closing := true;
      waits := holders > 1;
    }

    /** Everybody else has left: give the count and the connection up. */
    method TakeConnection() returns (taken: bool)
      modifies this
      ensures taken <==> old(holders) == 1
      ensures Value() == if taken then old(Value()).(holders := 0, connection := false) else old(Value())
    {
      taken := holders == 1;
      if taken {
        holders := 0;
        connection := false;
      }
    }

    method FinishClosing()
      modifies this
      ensures Value() == old(Value()).(acquisition := None, borrowersDone := None, closing := false)
    {
      acquisition := None;
      borrowersDone := None;
      closing := false;
    }
  }

  // ----- awaiting to the real end -----

  /** One resumption of the awaiting task: its own cancellation, or the end of
      the work it shields. */
  datatype Wake = Cancelled(reason: nat) | Finished(result: nat) | Raised(error: nat)

  datatype Outcome = Returns(result: nat) | Raises(error: nat) | Rethrows(cancellation: nat)

  function LastCancellation(wakes: seq<Wake>): Option<nat> {
    if wakes == [] then None
    else if wakes[|wakes| - 1].Cancelled? then Some(wakes[|wakes| - 1].reason)
    else LastCancellation(wakes[..|wakes| - 1])
  }

  /** `run_to_completion`: however often the caller is cancelled, it goes on
      only once the work has really ended, and then with the last cancellation
      if there was one. */
  method RunToCompletion(wakes: seq<Wake>) returns (used: nat, outcome: Outcome)
    requires exists i | 0 <= i < |wakes| :: !wakes[i].Cancelled?
    ensures 0 < used <= |wakes| && !wakes[used - 1].Cancelled?
    ensures forall i | 0 <= i < used - 1 :: wakes[i].Cancelled?
    ensures outcome == match LastCancellation(wakes[..used])
                       case Some(reason) => Rethrows(reason)
                       case None => if wakes[used - 1].Finished? then Returns(wakes[used - 1].result)
                                    else Raises(wakes[used - 1].error)
  {
    used := 0;
    var cancelled: Option<nat> := None;
    var done := false;
    while !done
      invariant 0 <= used <= |wakes|
      invariant done ==> used > 0 && !wakes[used - 1].Cancelled?
      invariant forall i | 0 <= i < (if done then used - 1 else used) :: wakes[i].Cancelled?
      invariant cancelled == LastCancellation(wakes[..used])
      decreases |wakes| - used, !done
    {
      var wake := wakes[used];
      assert wakes[..used + 1][..used] == wakes[..used];
      used := used + 1;
      if wake.Cancelled? {
        cancelled := Some(wake.reason);
      } else {
        done := true;
      }
    }
    var end := wakes[used - 1];
    if cancelled.Some? {
      outcome := Rethrows(cancelled.value);
    } else if end.Finished? {
      outcome := Returns(end.result);
    } else {
      outcome := Raises(end.error);
    }
  }
}

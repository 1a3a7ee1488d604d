/** What a run did to a job, read off its events: which ending its row shows,
    when it is running, and how many hints of it are about. */
module JobStory {
  import opened Dispatcher

  // ----- what a step does to one row -----

  /** The worker's good verdict, or a receipt of one found at a restart. */
  predicate Succeeds(s: State, ev: Event, j: nat) {
    || (ev.Verdict? && ev.report.job == j && ev.phase.Succeeded?)
    || (ev.Restart? && InPhase(s, j, Running) && j in ev.receipted && ev.receipted[j].Succeeded?)
  }

  predicate Cancels(s: State, ev: Event, j: nat) {
    || ev == Cancel(j)
    || (ev.Restart? && InPhase(s, j, Running) && j in ev.receipted && ev.receipted[j].Cancelled?)
  }

  /** The dispatch commits: seen to, or found out after a raise. */
  predicate Starts(s: State, ev: Event, j: nat) {
    && s.hand.Holds(j)
    && (|| ev.CommitRunning? || ev.Claimed? || ev == ClaimRaises(true)
        || (ev == DispatchRaises(true) && s.hand.Sending?))
  }

  /** The one retry: recovered by the loop, or at a restart. */
  predicate Retries(s: State, ev: Event, j: nat) {
    && InPhase(s, j, Running) && s.rows[j].attempt == 1
    && (|| (ev.Requeue? && s.hand.Holds(j))
        || (ev == RecoveryRaises(true) && s.hand.Holds(j) && s.hand.Recovering?)
        || (ev.Restart? && j !in ev.receipted))
  }

  /** The phase the step leaves, told by what it does. */
  function Told(s: State, ev: Event, j: nat): Phase
    requires Enabled(s, ev) && j in s.rows
  {
    if Succeeds(s, ev, j) then Succeeded
    else if Cancels(s, ev, j) then Cancelled
    else if Ends(s, ev, j) then Failed
    else if Starts(s, ev, j) then Running
    else if Retries(s, ev, j) then Queued
    else s.rows[j].phase
  }

  predicate TellsTrue(s: State, ev: Event, j: nat)
    requires Enabled(s, ev) && j in s.rows
  {
    && j in Next(s, ev).rows && Next(s, ev).rows[j].phase == Told(s, ev, j)
    && Next(s, ev).rows[j].attempt == s.rows[j].attempt + (if Retries(s, ev, j) then 1 else 0)
    && (Succeeds(s, ev, j) || Cancels(s, ev, j) ==> Ends(s, ev, j))
    && (Ends(s, ev, j) ==> !Starts(s, ev, j) && !Retries(s, ev, j))
  }

  lemma OutsideTells(s: State, ev: Event, j: nat)
    requires Inv(s) && Enabled(s, ev) && j in s.rows && Outside(ev) && !Rowless(ev)
    ensures TellsTrue(s, ev, j)
  {
    assert RowOk(s, j);
    match ev
    case Submit(_) =>
    case Verdict(_, _) =>
    case Cancel(_) =>
    case Restart(_) =>
  }

  lemma RequeueTells(s: State, j: nat)
    requires Inv(s) && Enabled(s, Requeue) && j in s.rows
    ensures TellsTrue(s, Requeue, j)
  {
    assert RowOk(s, j);
  }

  lemma RecoveryRaiseTells(s: State, applied: bool, j: nat)
    requires Inv(s) && Enabled(s, RecoveryRaises(applied)) && j in s.rows
    ensures TellsTrue(s, RecoveryRaises(applied), j)
  {
    assert RowOk(s, j);
  }

  lemma RecoveryTells(s: State, ev: Event, j: nat)
    requires Inv(s) && Enabled(s, ev) && j in s.rows && Recovery(ev)
    ensures TellsTrue(s, ev, j)
  {
    match ev
    case TakeLost(_) =>
    case Sweep(_) =>
    case Requeue => RequeueTells(s, j);
    case PushRequeued =>
    case FailSpent =>
    case RecoveryRaises(applied) => RecoveryRaiseTells(s, applied, j);
  }

  lemma ClaimTells(s: State, ev: Event, j: nat)
    requires Inv(s) && Enabled(s, ev) && j in s.rows && (ev.Claimed? || ev.ClaimRaises?)
    ensures TellsTrue(s, ev, j)
  {
    match ev
    case Claimed =>
    case ClaimRaises(_) =>
  }

  lemma SendTells(s: State, ev: Event, j: nat)
    requires Inv(s) && Enabled(s, ev) && j in s.rows
    requires !Recovery(ev) && !Outside(ev) && !Booking(ev) && !Claim(ev)
    ensures TellsTrue(s, ev, j)
  {
    match ev
    case NoSource =>
    case FailSource =>
    case SendFails =>
    case CommitRunning =>
    case DispatchRaises(_) =>
  }

  predicate Silent(s: State, ev: Event, j: nat)
    requires Enabled(s, ev)
  {
    && !Succeeds(s, ev, j) && !Cancels(s, ev, j) && !Ends(s, ev, j)
    && !Starts(s, ev, j) && !Retries(s, ev, j)
  }

  lemma RowlessIsSilent(s: State, ev: Event, j: nat)
    requires Enabled(s, ev) && Rowless(ev)
    ensures Silent(s, ev, j)
  {
  }

  lemma UnwritingIsSilent(s: State, ev: Event, j: nat)
    requires Enabled(s, ev) && Unwriting(ev)
    ensures Silent(s, ev, j)
  {
  }

  lemma StepTells(s: State, ev: Event, j: nat)
    requires Inv(s) && Enabled(s, ev) && j in s.rows
    ensures TellsTrue(s, ev, j)
  {
    if Rowless(ev) {
      RowlessKeepsRows(s, ev);
      RowlessIsSilent(s, ev, j);
    } else if Outside(ev) {
      OutsideTells(s, ev, j);
    } else if Recovery(ev) {
      RecoveryTells(s, ev, j);
    } else if Unwriting(ev) {
      UnwritingKeepsRows(s, ev);
      UnwritingIsSilent(s, ev, j);
    } else if Claim(ev) {
      ClaimTells(s, ev, j);
    } else {
      SendTells(s, ev, j);
    }
  }

  // ----- the ending of a job, over a run -----

  predicate EverSucceeded(evs: seq<Event>, j: nat)
    requires Run(evs)
  {
    evs != [] &&
    var before := evs[..|evs| - 1];
    EverSucceeded(before, j) || Succeeds(After(before), evs[|evs| - 1], j)
  }

  predicate EverCancelled(evs: seq<Event>, j: nat)
    requires Run(evs)
  {
    evs != [] &&
    var before := evs[..|evs| - 1];
    EverCancelled(before, j) || Cancels(After(before), evs[|evs| - 1], j)
  }

  lemma NothingHappensUnborn(s: State, ev: Event, j: nat)
    requires Inv(s) && Enabled(s, ev) && j !in s.rows
    ensures !Succeeds(s, ev, j) && !Cancels(s, ev, j)
  {
  }

  lemma BornQueued(s: State, ev: Event, j: nat)
    requires Inv(s) && Enabled(s, ev) && j !in s.rows && j in Next(s, ev).rows
    ensures Next(s, ev).rows[j] == Row(Queued, 1)
  {
    RowMoves(s, ev, j);
    SubmittedRow(s, j);
  }

  lemma SubmittedRow(s: State, j: nat)
    requires Enabled(s, Submit(j))
    ensures Next(s, Submit(j)).rows == s.rows[j := Row(Queued, 1)]
  {
  }

  /** A row says Succeeded exactly when a worker's good verdict, or a receipt of
      one found at a restart, committed for the job; Cancelled exactly when a
      cancellation did; and Failed for every other ending. */
  lemma {:induction false} EndingTellsTheRun(evs: seq<Event>, j: nat)
    requires Run(evs)
    ensures InPhase(After(evs), j, Succeeded) <==> EverSucceeded(evs, j)
    ensures InPhase(After(evs), j, Cancelled) <==> EverCancelled(evs, j)
    ensures InPhase(After(evs), j, Failed)
            <==> Endings(evs, j) == 1 && !EverSucceeded(evs, j) && !EverCancelled(evs, j)
  {
    OneVerdict(evs, j);
    if evs != [] {
      var before, ev := evs[..|evs| - 1], evs[|evs| - 1];
      EndingTellsTheRun(before, j);
      RunKeepsInv(before);
      if j in After(before).rows {
        StepTells(After(before), ev, j);
        EndsOnce(After(before), ev, j);
        RowMoves(After(before), ev, j);
      } else {
        NothingHappensUnborn(After(before), ev, j);
        if j in After(evs).rows {
          BornQueued(After(before), ev, j);
        }
      }
    }
  }

  // ----- a live job -----

  /** Its dispatch committed and nobody has retried it since. */
  predicate UnderWay(evs: seq<Event>, j: nat)
    requires Run(evs)
  {
    evs != [] &&
    var before, ev := evs[..|evs| - 1], evs[|evs| - 1];
    !Retries(After(before), ev, j) && (Starts(After(before), ev, j) || UnderWay(before, j))
  }

  function Retried(evs: seq<Event>, j: nat): nat
    requires Run(evs)
  {
    if evs == [] then 0
    else
      var before := evs[..|evs| - 1];
      Retried(before, j) + if Retries(After(before), evs[|evs| - 1], j) then 1 else 0
  }

  lemma NotStartedUnborn(s: State, ev: Event, j: nat)
    requires Inv(s) && Enabled(s, ev) && j !in s.rows
    ensures !Starts(s, ev, j) && !Retries(s, ev, j)
  {
  }

  /** A live job is running exactly when a dispatch of it committed and was not
      retried since; otherwise it is queued; and it is on its second attempt
      exactly when it was retried, which happens once at most. */
  lemma {:induction false} LiveRowTellsTheRun(evs: seq<Event>, j: nat)
    requires Run(evs)
    ensures j in After(evs).rows ==>
      && After(evs).rows[j].attempt == 1 + Retried(evs, j) && Retried(evs, j) <= 1
      && (Live(After(evs), j) ==> (InPhase(After(evs), j, Running) <==> UnderWay(evs, j)))
    ensures j !in After(evs).rows ==> !UnderWay(evs, j) && Retried(evs, j) == 0
  {
    RunKeepsInv(evs);
    assert RowOk(After(evs), j);
    if evs != [] {
      var before, ev := evs[..|evs| - 1], evs[|evs| - 1];
      LiveRowTellsTheRun(before, j);
      RunKeepsInv(before);
      if j in After(before).rows {
        StepTells(After(before), ev, j);
        EndsOnce(After(before), ev, j);
      } else {
        NotStartedUnborn(After(before), ev, j);
        NothingHappensUnborn(After(before), ev, j);
        if j in After(evs).rows {
          BornQueued(After(before), ev, j);
        }
      }
    }
  }

  // ----- the hints of a job -----

  /** How often the job is named by something that will bring it to the loop
      again, or that the loop holds. */
  function Hints(s: State, j: nat): nat {
    (if j in s.arriving then 1 else 0) + s.queue[j] + s.parked[j] + s.lost[j] + (if s.hand.Holds(j) then 1 else 0)
  }

  /** A new row, and an entry given up by a sweep or with its worker. */
  predicate Gains(s: State, ev: Event, j: nat) {
    || ev == Submit(j) || ev == Sweep(j)
    || (ev.WorkerLost? && j in s.inflight && s.inflight[j].worker == ev.worker)
  }

  /** The request that fails before its push; and, of the job in hand, whatever
      is over, dispatched, refused as stale, or already has an entry. */
  predicate Lets(s: State, ev: Event, j: nat) {
    || ev == Abandon(j)
    || (s.hand.Holds(j)
        && (|| (ev.Requeue? && !Live(s, j))
            || ev.FailSpent? || ev.Drop? || ev.FailSource? || ev.CommitRunning? || ev.Claimed? || ev.ClaimUnread?
            || ev == Refused(true)
            || (ev.SendFails? && j !in s.inflight)
            || (ev.DispatchRaises? && j in s.inflight)
            || (ev.ClaimRead? && s.hand.Doubting? && s.hand.applied)))
  }

  predicate Balanced(s: State, ev: Event, j: nat)
    requires Enabled(s, ev)
  {
    Hints(Next(s, ev), j) + (if Lets(s, ev, j) then 1 else 0) == Hints(s, j) + (if Gains(s, ev, j) then 1 else 0)
  }

  lemma ArrivalBalances(s: State, ev: Event, j: nat)
    requires Inv(s) && Enabled(s, ev) && (ev.Submit? || ev.Enqueue? || ev.Abandon? || ev.EndPass?)
    ensures Balanced(s, ev, j)
  {
    assert RowOk(s, j);
    match ev
    case Submit(_) =>
    case Enqueue(_) =>
    case Abandon(_) =>
    case EndPass =>
  }

  lemma LossBalances(s: State, w: nat, j: nat)
    requires Enabled(s, WorkerLost(w))
    ensures Balanced(s, WorkerLost(w), j)
  {
    assert j in Held(s.inflight, w) <==> Gains(s, WorkerLost(w), j);
  }

  lemma ReportBalances(s: State, ev: Event, j: nat)
    requires Enabled(s, ev) && (ev.Hear? || ev.Verdict? || ev.Clear? || ev.Cancel?)
    ensures Balanced(s, ev, j)
  {
    match ev
    case Hear(_) =>
    case Verdict(_, _) =>
    case Clear(_) =>
    case Cancel(_) =>
  }

  lemma WorkerBalances(s: State, ev: Event, j: nat)
    requires Enabled(s, ev)
    requires ev.WorkerLost? || ev.Track? || ev.Hear? || ev.Verdict? || ev.Clear? || ev.Cancel?
    ensures Balanced(s, ev, j)
  {
    if ev.WorkerLost? {
      LossBalances(s, ev.worker, j);
    } else if !ev.Track? {
      ReportBalances(s, ev, j);
    }
  }

  lemma RequeueBalances(s: State, j: nat)
    requires Enabled(s, Requeue)
    ensures Balanced(s, Requeue, j)
  {
  }

  lemma RaiseBalances(s: State, applied: bool, j: nat)
    requires Enabled(s, RecoveryRaises(applied))
    ensures Balanced(s, RecoveryRaises(applied), j)
  {
  }

  lemma RecoveryBalances(s: State, ev: Event, j: nat)
    requires Enabled(s, ev) && Recovery(ev)
    ensures Balanced(s, ev, j)
  {
    match ev
    case TakeLost(_) =>
    case Sweep(_) =>
    case Requeue => RequeueBalances(s, j);
    case PushRequeued =>
    case FailSpent =>
    case RecoveryRaises(applied) => RaiseBalances(s, applied, j);
  }

  lemma BookingBalances(s: State, ev: Event, j: nat)
    requires Enabled(s, ev) && (ev.Book? || ev.ReadRow? || ev.BookClaim? || ev.LockRow?)
    ensures Balanced(s, ev, j)
  {
    match ev
    case LockRow(_) =>
    case Book =>
    case ReadRow(_) =>
    case BookClaim =>
  }

  lemma PickingBalances(s: State, ev: Event, j: nat)
    requires Enabled(s, ev) && (ev.Pop? || ev.Drop? || ev.Park?)
    ensures Balanced(s, ev, j)
  {
    match ev
    case Pop(_) =>
    case Drop =>
    case Park =>
  }

  lemma RefusalBalances(s: State, ev: Event, j: nat)
    requires Enabled(s, ev) && (ev.Refused? || ev.ClaimRead?)
    ensures Balanced(s, ev, j)
  {
    match ev
    case Refused(_) =>
    case ClaimRead =>
  }

  lemma ClaimBalances(s: State, ev: Event, j: nat)
    requires Enabled(s, ev) && Claim(ev)
    ensures Balanced(s, ev, j)
  {
    match ev
    case Claimed =>
    case Refused(_) => RefusalBalances(s, ev, j);
    case ClaimRaises(_) =>
    case ClaimRead => RefusalBalances(s, ev, j);
    case ClaimUnread =>
  }

  lemma SendBalances(s: State, ev: Event, j: nat)
    requires Enabled(s, ev) && !Recovery(ev) && !Outside(ev) && !Booking(ev) && !Claim(ev)
    ensures Balanced(s, ev, j)
  {
    match ev
    case NoSource =>
    case FailSource =>
    case SendFails =>
    case CommitRunning =>
    case DispatchRaises(_) =>
  }

  /** Hints are conserved: each step but a restart takes away exactly what it
      lets go of and adds exactly what it gains, and a restart leaves one hint
      of each queued job and none of any other. */
  lemma HintsAreConserved(s: State, ev: Event, j: nat)
    requires Inv(s) && Enabled(s, ev)
    ensures !ev.Restart? ==> Balanced(s, ev, j)
    ensures ev.Restart? ==> Hints(Next(s, ev), j) == if InPhase(Next(s, ev), j, Queued) then 1 else 0
  {
    if ev.Restart? {
    } else if ev.Submit? || ev.Enqueue? || ev.Abandon? || ev.EndPass? {
      ArrivalBalances(s, ev, j);
    } else if Outside(ev) {
      WorkerBalances(s, ev, j);
    } else if Recovery(ev) {
      RecoveryBalances(s, ev, j);
    } else if ev.Pop? || ev.Drop? || ev.Park? {
      PickingBalances(s, ev, j);
    } else if Booking(ev) {
      BookingBalances(s, ev, j);
    } else if Claim(ev) {
      ClaimBalances(s, ev, j);
    } else {
      SendBalances(s, ev, j);
    }
  }

  // ----- where the hints go -----

  /** The job in hand cannot be dispatched now: it waits for the pass to end. */
  predicate PutsAside(s: State, ev: Event, j: nat) {
    s.hand.Holds(j) && (ev.Park? || ev == Refused(false) || (ev.SendFails? && j in s.inflight))
  }

  /** The job needs recovery: its worker is gone, its recovery failed, or its
      claim turned out not to have committed. */
  predicate GivesUp(s: State, ev: Event, j: nat) {
    || (ev.WorkerLost? && j in s.inflight && s.inflight[j].worker == ev.worker)
    || (s.hand.Holds(j) && (ev.RecoveryRaises? || (ev.ClaimRead? && s.hand.Doubting? && !s.hand.applied)))
  }

  predicate WellPlaced(s: State, ev: Event, j: nat)
    requires Enabled(s, ev)
  {
    && (ev.EndPass? || ev.Restart? ==> Next(s, ev).parked == multiset{})
    && (!ev.EndPass? && !ev.Restart? ==>
          && Next(s, ev).parked[j] == s.parked[j] + (if PutsAside(s, ev, j) then 1 else 0))
    && (!ev.Restart? ==>
          Next(s, ev).lost[j] + (if ev == TakeLost(j) then 1 else 0) == s.lost[j] + (if GivesUp(s, ev, j) then 1 else 0))
  }

  lemma OutsidePlaces(s: State, ev: Event, j: nat)
    requires Enabled(s, ev) && Outside(ev)
    ensures WellPlaced(s, ev, j)
  {
    match ev
    case Submit(_) =>
    case Enqueue(_) =>
    case Abandon(_) =>
    case WorkerLost(w) => assert j in Held(s.inflight, w) <==> GivesUp(s, ev, j);
    case Track(_, _, _) =>
    case Hear(_) =>
    case Verdict(_, _) =>
    case Clear(_) =>
    case Cancel(_) =>
    case Restart(_) =>
    case EndPass =>
  }

  lemma RecoveryPlaces(s: State, ev: Event, j: nat)
    requires Enabled(s, ev) && Recovery(ev)
    ensures WellPlaced(s, ev, j)
  {
    match ev
    case TakeLost(_) =>
    case Sweep(_) =>
    case Requeue =>
    case PushRequeued =>
    case FailSpent =>
    case RecoveryRaises(_) =>
  }

  lemma BookingPlaces(s: State, ev: Event, j: nat)
    requires Enabled(s, ev) && Booking(ev)
    ensures WellPlaced(s, ev, j)
  {
    match ev
    case Pop(_) =>
    case Drop =>
    case Park =>
    case LockRow(_) =>
    case Book =>
    case ReadRow(_) =>
    case BookClaim =>
  }

  lemma ClaimPlaces(s: State, ev: Event, j: nat)
    requires Enabled(s, ev) && Claim(ev)
    ensures WellPlaced(s, ev, j)
  {
    match ev
    case Claimed =>
    case Refused(_) =>
    case ClaimRaises(_) =>
    case ClaimRead =>
    case ClaimUnread =>
  }

  lemma SendPlaces(s: State, ev: Event, j: nat)
    requires Enabled(s, ev) && !Recovery(ev) && !Outside(ev) && !Booking(ev) && !Claim(ev)
    ensures WellPlaced(s, ev, j)
  {
    match ev
    case NoSource =>
    case FailSource =>
    case SendFails =>
    case CommitRunning =>
    case DispatchRaises(_) =>
  }

  /** What could not be dispatched is set aside, what needs recovery is given to
      recovery, and by conservation every other hint goes on the queue. */
  lemma HintsArePlaced(s: State, ev: Event, j: nat)
    requires Enabled(s, ev)
    ensures WellPlaced(s, ev, j)
  {
    if Outside(ev) {
      OutsidePlaces(s, ev, j);
    } else if Recovery(ev) {
      RecoveryPlaces(s, ev, j);
    } else if Booking(ev) {
      BookingPlaces(s, ev, j);
    } else if Claim(ev) {
      ClaimPlaces(s, ev, j);
    } else {
      SendPlaces(s, ev, j);
    }
  }

  /** A job set aside is not picked up again in the same pass: its hint stays
      aside until the pass ends or the process restarts. */
  lemma {:induction false} AsideUntilThePassEnds(evs: seq<Event>, n: nat, j: nat)
    requires Run(evs) && n <= |evs| && Run(evs[..n])
    requires forall i | n <= i < |evs| :: !evs[i].EndPass? && !evs[i].Restart?
    ensures After(evs).parked[j] >= After(evs[..n]).parked[j]
    decreases |evs|
  {
    if n == |evs| {
      assert evs[..n] == evs;
    } else {
      var before := evs[..|evs| - 1];
      assert before[..n] == evs[..n];
      AsideUntilThePassEnds(before, n, j);
      HintsArePlaced(After(before), evs[|before|], j);
    }
  }

  // ----- how much a worker is given -----

  function Tracks(evs: seq<Event>, w: nat): nat {
    if evs == [] then 0
    else Tracks(evs[..|evs| - 1], w) + if evs[|evs| - 1].Track? && evs[|evs| - 1].worker == w then 1 else 0
  }

  /** The worker the loop has picked and not yet booked. */
  predicate Picked(s: State, w: nat) {
    (s.hand.Locked? || s.hand.Read?) && s.hand.worker == w
  }

  function Load(s: State, w: nat): nat {
    Slot(s.slots, w) + if Picked(s, w) then 1 else 0
  }

  lemma LoadBooked(s: State, ev: Event, w: nat)
    requires Enabled(s, ev) && Booking(ev)
    ensures Load(Next(s, ev), w) <= Load(s, w) || Load(Next(s, ev), w) <= 2
  {
    match ev
    case Pop(_) =>
    case Drop =>
    case Park =>
    case LockRow(_) =>
    case Book =>
    case ReadRow(_) =>
    case BookClaim =>
  }

  lemma LoadRecovered(s: State, ev: Event, w: nat)
    requires Enabled(s, ev) && Recovery(ev)
    ensures Load(Next(s, ev), w) <= Load(s, w)
  {
    match ev
    case TakeLost(_) =>
    case Sweep(_) =>
    case Requeue =>
    case PushRequeued =>
    case FailSpent =>
    case RecoveryRaises(_) =>
  }

  lemma LoadClaimed(s: State, ev: Event, w: nat)
    requires Enabled(s, ev) && Claim(ev)
    ensures Load(Next(s, ev), w) <= Load(s, w)
  {
    match ev
    case Claimed =>
    case Refused(_) =>
    case ClaimRaises(_) =>
    case ClaimRead =>
    case ClaimUnread =>
  }

  lemma LoadSent(s: State, ev: Event, w: nat)
    requires Enabled(s, ev) && !Outside(ev) && !Recovery(ev) && !Claim(ev) && !Booking(ev)
    ensures Load(Next(s, ev), w) <= Load(s, w)
  {
    match ev
    case NoSource =>
    case FailSource =>
    case SendFails =>
    case CommitRunning =>
    case DispatchRaises(_) =>
  }

  lemma LoadOutside(s: State, ev: Event, w: nat)
    requires Enabled(s, ev) && Outside(ev)
    ensures Load(Next(s, ev), w) <= Load(s, w) + if ev.Track? && ev.worker == w then 1 else 0
  {
    match ev
    case Submit(_) =>
    case Enqueue(_) =>
    case Abandon(_) =>
    case WorkerLost(_) =>
    case Track(_, _, _) =>
    case Hear(_) =>
    case Verdict(_, _) =>
    case Clear(_) =>
    case Cancel(_) =>
    case Restart(_) =>
    case EndPass =>
  }

  /** A worker is never counted for more than two jobs, the one being booked
      included, but for those it claims to have been given before. */
  lemma {:induction false} NobodyIsOverloaded(evs: seq<Event>, w: nat)
    requires Run(evs)
    ensures Load(After(evs), w) <= 2 + Tracks(evs, w)
  {
    if evs != [] {
      var before, ev := evs[..|evs| - 1], evs[|evs| - 1];
      NobodyIsOverloaded(before, w);
      if Booking(ev) {
        LoadBooked(After(before), ev, w);
      } else if Recovery(ev) {
        LoadRecovered(After(before), ev, w);
      } else if Claim(ev) {
        LoadClaimed(After(before), ev, w);
      } else if Outside(ev) {
        LoadOutside(After(before), ev, w);
      } else {
        LoadSent(After(before), ev, w);
      }
    }
  }

  // ----- every tracked job can come to its end -----

  /** The steps of the loop, of a request that pushes, and of a worker that
      reports: no cancellation, no restart, nobody lost or gone missing. */
  predicate Ordinary(ev: Event) {
    !ev.Cancel? && !ev.Restart? && !ev.Track? && !ev.WorkerLost? && !ev.Abandon?
  }

  ghost predicate Path(s: State, evs: seq<Event>, t: State)
    decreases |evs|
  {
    if evs == [] then s == t
    else Enabled(s, evs[0]) && Ordinary(evs[0]) && Path(Next(s, evs[0]), evs[1..], t)
  }

  ghost predicate Leads(s: State, t: State) {
    exists evs :: Path(s, evs, t)
  }

  ghost predicate CanBe(s: State, j: nat, p: Phase) {
    exists t :: Leads(s, t) && InPhase(t, j, p)
  }

  lemma {:induction false} Joined(s: State, evs: seq<Event>, t: State, more: seq<Event>, u: State)
    requires Path(s, evs, t) && Path(t, more, u)
    ensures Path(s, evs + more, u)
    decreases |evs|
  {
    if evs == [] {
      assert evs + more == more;
    } else {
      Joined(Next(s, evs[0]), evs[1..], t, more, u);
      assert (evs + more)[0] == evs[0] && (evs + more)[1..] == evs[1..] + more;
    }
  }

  lemma FirstStep(s: State, ev: Event)
    requires Enabled(s, ev) && Ordinary(ev)
    ensures Leads(s, Next(s, ev))
  {
    var t := Next(s, ev);
    assert [ev][1..] == [] && Path(t, [ev][1..], t);
    assert Path(s, [ev], t);
  }

  lemma CanBeLater(s: State, ev: Event, j: nat, p: Phase)
    requires Enabled(s, ev) && Ordinary(ev) && CanBe(Next(s, ev), j, p)
    ensures CanBe(s, j, p)
  {
    var t :| Leads(Next(s, ev), t) && InPhase(t, j, p);
    var evs :| Path(Next(s, ev), evs, t);
    FirstStep(s, ev);
    assert [ev][1..] == [] && Path(s, [ev], Next(s, ev));
    Joined(s, [ev], Next(s, ev), evs, t);
  }

  lemma CanBeNow(s: State, j: nat, p: Phase)
    requires InPhase(s, j, p)
    ensures CanBe(s, j, p)
  {
    assert Path(s, [], s);
    assert Leads(s, s);
  }

  /** A worker that has the current attempt can report it done. */
  lemma HeldCanSucceed(s: State, j: nat)
    requires Inv(s) && Live(s, j) && j in s.inflight && s.inflight[j].attempt == s.rows[j].attempt && !s.hand.Locks(j)
    ensures CanBe(s, j, Succeeded)
  {
    var r := Report(j, s.inflight[j]);
    var t := Next(s, Hear(j));
    assert t == s.(reports := s.reports + {r});
    assert Enabled(t, Verdict(r, Succeeded)) && Next(t, Verdict(r, Succeeded)) == Put(t, j, Succeeded);
    CanBeNow(Next(t, Verdict(r, Succeeded)), j, Succeeded);
    CanBeLater(t, Verdict(r, Succeeded), j, Succeeded);
    CanBeLater(s, Hear(j), j, Succeeded);
  }

  ghost function Max(s: set<nat>): (m: nat)
    ensures forall x | x in s :: x <= m
  {
    if s == {} then 0
    else
      var x :| x in s;
      var m := Max(s - {x});
      assert s == (s - {x}) + {x};
      if x > m then x else m
  }

  /** A queued job with a hint can be dispatched, at the latest when a further
      worker connects. */
  lemma QueuedCanSucceed(s: State, j: nat)
    requires Inv(s) && s.hand.Idle? && InPhase(s, j, Queued) && j in s.queue
    ensures CanBe(s, j, Succeeded)
  {
    var w := Max(s.gone + s.slots.Keys) + 1;
    assert w !in s.gone && Slot(s.slots, w) == 0;
    var t := Next(s, Pop(j));
    assert t == s.(queue := s.queue - multiset{j}, hand := Popped(j));
    NextKeepsInv(s, Pop(j));
    PoppedCanSucceed(t, j, w);
    CanBeLater(s, Pop(j), j, Succeeded);
  }

  lemma PoppedCanSucceed(s: State, j: nat, w: nat)
    requires Inv(s) && s.hand == Popped(j) && InPhase(s, j, Queued) && w !in s.gone && Slot(s.slots, w) == 0
    ensures CanBe(s, j, Succeeded)
  {
    var t := Next(s, LockRow(w));
    assert t == s.(hand := Locked(j, w));
    NextKeepsInv(s, LockRow(w));
    LockedCanSucceed(t, j, w);
    CanBeLater(s, LockRow(w), j, Succeeded);
  }

  lemma LockedCanSucceed(s: State, j: nat, w: nat)
    requires Inv(s) && s.hand == Locked(j, w)
    ensures CanBe(s, j, Succeeded)
  {
    var e := Entry(w, s.rows[j].attempt, s.nextId);
    var t := Next(s, Book);
    assert t.hand == Sending(j, e) && t.rows == s.rows && j in t.inflight && t.inflight[j] == e;
    NextKeepsInv(s, Book);
    SentCanSucceed(t, j, e);
    CanBeLater(s, Book, j, Succeeded);
  }

  lemma SentCanSucceed(s: State, j: nat, e: Entry)
    requires Inv(s) && s.hand == Sending(j, e) && Mine(s, j, e)
    ensures CanBe(s, j, Succeeded)
  {
    var t := Next(s, CommitRunning);
    assert t == Put(s, j, Running).(hand := Idle);
    NextKeepsInv(s, CommitRunning);
    HeldCanSucceed(t, j);
    CanBeLater(s, CommitRunning, j, Succeeded);
  }

  /** The second attempt runs, and nobody has its entry any more. */
  predicate Forlorn(s: State, j: nat) {
    && j in s.rows && s.rows[j] == Row(Running, 2)
    && !(j in s.inflight && s.inflight[j].attempt == 2)
  }

  function Best(s: State, j: nat): Phase { if Forlorn(s, j) then Failed else Succeeded }

  /** Recovery puts a job back on the queue, or fails a second attempt. */
  lemma RecoveringCanEnd(s: State, j: nat)
    requires Inv(s) && s.hand == Recovering(j) && Live(s, j)
    ensures CanBe(s, j, if s.rows[j] == Row(Running, 2) then Failed else Succeeded)
  {
    var t := Next(s, Requeue);
    assert t == AfterRequeue(s, j);
    NextKeepsInv(s, Requeue);
    assert RowOk(s, j);
    if s.rows[j].phase.Queued? {
      QueuedCanSucceed(t, j);
      CanBeLater(s, Requeue, j, Succeeded);
    } else if s.rows[j].attempt == 1 {
      RequeueingCanSucceed(t, j);
      CanBeLater(s, Requeue, j, Succeeded);
    } else {
      assert Next(t, FailSpent).rows == Put(t, j, Failed).rows;
      CanBeNow(Next(t, FailSpent), j, Failed);
      CanBeLater(t, FailSpent, j, Failed);
      CanBeLater(s, Requeue, j, Failed);
    }
  }

  lemma RequeueingCanSucceed(s: State, j: nat)
    requires Inv(s) && s.hand == Requeueing(j) && InPhase(s, j, Queued)
    ensures CanBe(s, j, Succeeded)
  {
    var t := Next(s, PushRequeued);
    assert t == s.(hand := Idle, queue := s.queue + multiset{j});
    NextKeepsInv(s, PushRequeued);
    QueuedCanSucceed(t, j);
    CanBeLater(s, PushRequeued, j, Succeeded);
  }

  lemma LostCanEnd(s: State, j: nat)
    requires Inv(s) && s.hand.Idle? && Live(s, j) && j in s.lost
    ensures CanBe(s, j, if s.rows[j] == Row(Running, 2) then Failed else Succeeded)
  {
    var t := Next(s, TakeLost(j));
    assert t == s.(lost := s.lost - multiset{j}, hand := Recovering(j));
    NextKeepsInv(s, TakeLost(j));
    RecoveringCanEnd(t, j);
    CanBeLater(s, TakeLost(j), j, if s.rows[j] == Row(Running, 2) then Failed else Succeeded);
  }

  lemma StaleCanSucceed(s: State, j: nat)
    requires Inv(s) && s.hand.Idle? && Live(s, j) && j in s.inflight && s.rows[j] != Row(Running, 2)
    ensures CanBe(s, j, Succeeded)
  {
    var t := Next(s, Sweep(j));
    assert t.hand == Recovering(j) && t.rows == s.rows;
    NextKeepsInv(s, Sweep(j));
    RecoveringCanEnd(t, j);
    CanBeLater(s, Sweep(j), j, Succeeded);
  }

  lemma WaitingCanSucceed(s: State, j: nat)
    requires Inv(s) && s.hand.Idle? && InPhase(s, j, Queued) && (j in s.arriving || j in s.parked)
    ensures CanBe(s, j, Succeeded)
  {
    var ev := if j in s.arriving then Enqueue(j) else EndPass;
    var t := Next(s, ev);
    assert t.hand.Idle? && t.rows == s.rows && j in t.queue;
    NextKeepsInv(s, ev);
    QueuedCanSucceed(t, j);
    CanBeLater(s, ev, j, Succeeded);
  }

  lemma IdleCanEnd(s: State, j: nat)
    requires Inv(s) && s.hand.Idle? && Live(s, j) && Tracked(s, j)
    requires s.rows[j] == Row(Running, 2) ==> Forlorn(s, j)
    ensures CanBe(s, j, Best(s, j))
  {
    assert RowOk(s, j);
    if j in s.lost {
      LostCanEnd(s, j);
    } else if j in s.inflight {
      StaleCanSucceed(s, j);
    } else if j in s.queue {
      QueuedCanSucceed(s, j);
    } else {
      WaitingCanSucceed(s, j);
    }
  }

  /** How the loop can put down what it holds: in one step, or two. */
  function Way(s: State): Event
    requires !s.hand.Idle?
  {
    match s.hand
    case Recovering(_) => Requeue
    case Requeueing(_) => PushRequeued
    case Failing(_) => RecoveryRaises(false)
    case Popped(_) => Park
    case Read(_, _, _) => Park
    case Locked(_, _) => DispatchRaises(false)
    case Sending(_, _) => DispatchRaises(false)
    case Sourceless(_) => DispatchRaises(false)
    case Claiming(_, _) => Refused(false)
    case Doubting(_, _, _) => ClaimRead
  }

  function Burden(s: State): nat {
    if s.hand.Idle? then 0 else if s.hand.Recovering? then 2 else 1
  }

  lemma WayIsOpen(s: State)
    requires Inv(s) && !s.hand.Idle?
    ensures Enabled(s, Way(s)) && Ordinary(Way(s)) && !Way(s).Clear?
    ensures Burden(Next(s, Way(s))) < Burden(s)
    ensures forall j | j in s.rows && s.hand != Recovering(j) ::
      j in Next(s, Way(s)).rows && Next(s, Way(s)).rows[j] == s.rows[j]
    ensures forall j | j in Next(s, Way(s)).inflight :: j in s.inflight && Next(s, Way(s)).inflight[j] == s.inflight[j]
  {
    match s.hand
    case Recovering(_) =>
    case Requeueing(_) =>
    case Failing(_) =>
    case Popped(_) =>
    case Read(_, _, _) =>
    case Locked(_, _) =>
    case Sending(_, _) =>
    case Sourceless(_) =>
    case Claiming(_, _) =>
    case Doubting(_, _, _) =>
  }

  lemma {:induction false} TrackedCanEnd(s: State, j: nat)
    requires Inv(s) && Live(s, j) && Tracked(s, j)
    ensures CanBe(s, j, Best(s, j))
    decreases Burden(s)
  {
    assert RowOk(s, j);
    if s.rows[j] == Row(Running, 2) && j in s.inflight && s.inflight[j].attempt == 2 {
      HeldCanSucceed(s, j);
    } else if s.hand.Idle? {
      IdleCanEnd(s, j);
    } else if s.hand == Recovering(j) {
      RecoveringCanEnd(s, j);
    } else {
      WayIsOpen(s);
      var ev := Way(s);
      NextKeepsInv(s, ev);
      CustodyStep(s, ev, j);
      TrackedCanEnd(Next(s, ev), j);
      CanBeLater(s, ev, j, Best(s, j));
    }
  }

  /** From every reachable state a tracked live job can still succeed by ordinary
      steps alone; but for a second attempt whose entry is gone, which can still
      be failed.  The loop never gets stuck on a job or around it. */
  lemma EveryTrackedJobCanEnd(evs: seq<Event>, j: nat)
    requires Run(evs) && Live(After(evs), j) && Tracked(After(evs), j)
    ensures CanBe(After(evs), j, if Forlorn(After(evs), j) then Failed else Succeeded)
  {
    RunKeepsInv(evs);
    TrackedCanEnd(After(evs), j);
  }
}
